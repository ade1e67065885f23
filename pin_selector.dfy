/**
 * The pin picker (app/components/PinSelector.tsx): the pins it loads, the
 * selection toggled by clicks, and the hand-over of the selection. The
 * component replaces its state wholesale, so each step is a function from the
 * old value to the new one.
 */
module PinSelector {
  import opened Wrappers
  import opened Js
  import opened Rows
  import opened Pinterest

  function PinKey(p: Pin): string { p.id }

  function IdOtherThan(id: string): Pin -> bool {
    (p: Pin) => p.id != id
  }

  /** `selectedPins.some(p => p.id === id)` */
  predicate IsSelected(selected: seq<Pin>, id: string) {
    exists k :: 0 <= k < |selected| && selected[k].id == id
  }

  /** `togglePinSelection(pin)`: drops every entry with the pin's id if there
      is one, else appends the pin. */
  function Toggle(selected: seq<Pin>, pin: Pin): (r: seq<Pin>)
    ensures IsSelected(r, pin.id) <==> !IsSelected(selected, pin.id)
    ensures !IsSelected(selected, pin.id) ==> r == selected + [pin]
  {
    if IsSelected(selected, pin.id) then
      var r := Filter(selected, IdOtherThan(pin.id));
      assert !IsSelected(r, pin.id) by {
        forall k | 0 <= k < |r| ensures r[k].id != pin.id {
          assert IdOtherThan(pin.id)(r[k]);
        }
      }
      r
    else
      assert (selected + [pin])[|selected|] == pin;
      selected + [pin]
  }

  /** Toggling never produces two entries with the same id. */
  lemma ToggleKeepsIdsDistinct(selected: seq<Pin>, pin: Pin)
    requires DistinctKeys(selected, PinKey)
    ensures DistinctKeys(Toggle(selected, pin), PinKey)
  {
    if IsSelected(selected, pin.id) {
      FilterKeepsKeysDistinct(selected, IdOtherThan(pin.id), PinKey);
    } else {
      var r := selected + [pin];
      forall i, j | 0 <= i < j < |r| ensures PinKey(r[i]) != PinKey(r[j]) {
        if j == |selected| {
          assert r[i] == selected[i];
        } else {
          assert r[i] == selected[i] && r[j] == selected[j];
        }
      }
    }
  }

  /** The entries with other ids stay, in the same order. */
  lemma ToggleLeavesOthers(selected: seq<Pin>, pin: Pin)
    ensures Filter(Toggle(selected, pin), IdOtherThan(pin.id)) == Filter(selected, IdOtherThan(pin.id))
  {
    var q := IdOtherThan(pin.id);
    if IsSelected(selected, pin.id) {
      FilterTwice(selected, q, q, q);
    } else {
      FilterConcat(selected, [pin], q);
      assert Filter([pin], q) == [];
      assert Filter(selected, q) + [] == Filter(selected, q);
    }
  }

  /** Toggling an unselected pin twice restores the selection. */
  lemma ToggleTwice(selected: seq<Pin>, pin: Pin)
    requires !IsSelected(selected, pin.id)
    ensures Toggle(Toggle(selected, pin), pin) == selected
  {
    var q := IdOtherThan(pin.id);
    assert IsSelected(selected + [pin], pin.id) by {
      assert (selected + [pin])[|selected|] == pin;
    }
    FilterConcat(selected, [pin], q);
    assert Filter([pin], q) == [];
    FilterAll(selected, q);
    assert selected + [] == selected;
  }

  /** `handleAddSelectedPins()`: `None` is the alert for an empty selection;
      otherwise the selection handed to `onPinSelect`, unchanged. */
  function AddSelectedPins(selected: seq<Pin>): (handedOver: Option<seq<Pin>>)
    ensures handedOver.None? <==> selected == []
    ensures handedOver.Some? ==> handedOver.value == selected
  {
    if |selected| == 0 then None else Some(selected)
  }

  /** The address the component loads pins from: the `accessToken` prop wins
      over the session token; the token is appended as it is, not encoded. */
  function PinsUrl(accessToken: Option<string>, contextToken: Option<string>): (url: string)
    ensures Truthy(accessToken) ==> url == "/api/getPins?access_token=" + accessToken.value
    ensures !Truthy(accessToken) && Truthy(contextToken) ==> url == "/api/getPins?access_token=" + contextToken.value
    ensures !Truthy(accessToken) && !Truthy(contextToken) ==> url == "/api/getPins"
  {
    var tokenToUse := Or(accessToken, contextToken);
    "/api/getPins" + if Truthy(tokenToUse) then "?access_token=" + tokenToUse.value else ""
  }

  /** The pins shown after loading: the reply's pins, or [] without a `pins`
      field; a failed or not-ok reply shows an error instead. */
  function Loaded(reply: PinsReply): (r: Outcome<seq<Pin>>)
    ensures r.Thrown? <==> reply.NetworkError? || !reply.ok
    ensures r.Thrown? ==> r.message == "Failed to load pins from Pinterest"
    ensures r.Ok? && reply.pins.None? ==> r.value == []
    ensures r.Ok? && reply.pins.Some? ==> r.value == reply.pins.value
  {
    if reply.NetworkError? || !reply.ok then Thrown("Failed to load pins from Pinterest")
    else Ok(PinsOf(reply))
  }
}
