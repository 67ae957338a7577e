/** The key-state table `m_keys` and the input events that write it. */
module KeyState {

  /** `NUM_KEYS`: the table has one entry per key code below 128. */
  const NumKeys: nat := 128

  /** The SDL key codes the game reads (`SDLK_ESCAPE`, `SDLK_w`, ...): their
      ASCII values. */
  const KeyEscape: nat := 27
  const KeyA: nat := 97
  const KeyD: nat := 100
  const KeyS: nat := 115
  const KeyW: nat := 119

  datatype Option<T> = None | Some(value: T)

  /** The events of the polling loop that change the modelled state. Key codes
      are SDL keycodes, which are never negative. */
  datatype Event = KeyDown(code: nat) | KeyUp(code: nat) | QuitRequest

  predicate IsTable(table: seq<bool>)
  {
    |table| == NumKeys
  }

  /** One key event: a code below 128 records whether the key is now held,
      every other code leaves the table as it was. */
  function SetKey(table: seq<bool>, code: nat, down: bool): (r: seq<bool>)
    requires IsTable(table)
    ensures IsTable(r)
    ensures code < NumKeys ==> r[code] == down
    ensures forall k :: 0 <= k < NumKeys && k != code ==> r[k] == table[k]
    ensures NumKeys <= code ==> r == table
  {
    if code < NumKeys then table[code := down] else table
  }

  /** What one polled event does to the table. */
  function ApplyEvent(table: seq<bool>, e: Event): (r: seq<bool>)
    requires IsTable(table)
    ensures IsTable(r)
  {
    match e
    case KeyDown(code) => SetKey(table, code, true)
    case KeyUp(code) => SetKey(table, code, false)
    case QuitRequest => table
  }

  /** The table after a batch of events, handled in arrival order. */
  function ApplyEvents(table: seq<bool>, events: seq<Event>): (r: seq<bool>)
    requires IsTable(table)
    ensures IsTable(r)
    decreases |events|
  {
    if events == [] then table
    else ApplyEvent(ApplyEvents(table, events[..|events| - 1]), events[|events| - 1])
  }

  /** The state the last key event for `code` in `events` left that key in,
      if there is one: an independent reading of the table. */
  function LastKeyEvent(events: seq<Event>, code: nat): Option<bool>
    decreases |events|
  {
    if events == [] then None
    else
      var e := events[|events| - 1];
      if !e.QuitRequest? && e.code == code then Some(e.KeyDown?)
      else LastKeyEvent(events[..|events| - 1], code)
  }

  /** After a batch of events each entry of the table holds what the last
      event for its key said, or its old value if no event named that key. */
  lemma {:induction false} LastEventWins(table: seq<bool>, events: seq<Event>, code: nat)
    requires IsTable(table) && code < NumKeys
    ensures ApplyEvents(table, events)[code] ==
            match LastKeyEvent(events, code)
            case Some(down) => down
            case None => table[code]
    decreases |events|
  {
    if events != [] {
      LastEventWins(table, events[..|events| - 1], code);
    }
  }

  /** A batch whose key events all carry codes of 128 or more leaves the
      whole table unchanged. */
  lemma {:induction false} HighCodesIgnored(table: seq<bool>, events: seq<Event>)
    requires IsTable(table)
    requires forall i :: 0 <= i < |events| && !events[i].QuitRequest? ==> NumKeys <= events[i].code
    ensures ApplyEvents(table, events) == table
    decreases |events|
  {
    if events != [] {
      HighCodesIgnored(table, events[..|events| - 1]);
    }
  }
}
