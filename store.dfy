/** The in-memory retention store `events_storage`: records are appended as
    they are recognised, only the newest fifty are kept, they are listed
    newest first, and the store can be emptied. */
module Store {
  import opened PyValues
  import opened Normalizer

  /** How many records the in-memory store keeps. */
  const Capacity: nat := 50

  /** What happened in the optional primary database before the in-memory
      store is consulted: none is configured, it took the record, or it
      raised and the record falls back to memory. */
  datatype Primary = NoPrimary | PrimaryStored | PrimaryFailed

  /** The last `n` elements of `s` (all of them when there are fewer). */
  function LastN<T>(s: seq<T>, n: nat): (r: seq<T>)
    ensures |r| == if |s| < n then |s| else n
    ensures forall i :: 0 <= i < |r| ==> r[i] == s[|s| - |r| + i]
  {
    if |s| <= n then s else s[|s| - n..]
  }

  /** The store after `append` followed by one `pop(0)` when it has grown
      beyond the capacity: the new record comes last, after the newest of the
      old records, and the store grows by one until it reaches the capacity. */
  function Retained(s: seq<Event>, e: Event): (r: seq<Event>)
    ensures |r| == if |s| < Capacity then |s| + 1 else |s|
    ensures r[|r| - 1] == e
    ensures forall i :: 0 <= i < |r| - 1 ==> r[i] == s[|s| - |r| + 1 + i]
  {
    var grown := s + [e];
    if |grown| > Capacity then grown[1..] else grown
  }

  /** The store after receiving every record of `history`, oldest first,
      starting from an empty store. */
  function Receive(history: seq<Event>): seq<Event>
    decreases |history|
  {
    if history == [] then []
    else Retained(Receive(history[..|history| - 1]), history[|history| - 1])
  }

  /** `s` in reverse order, as `list(reversed(s))`. */
  function Reversed<T>(s: seq<T>): (r: seq<T>)
    ensures |r| == |s|
    ensures forall i :: 0 <= i < |s| ==> r[i] == s[|s| - 1 - i]
    decreases |s|
  {
    if s == [] then [] else [s[|s| - 1]] + Reversed(s[..|s| - 1])
  }

  /** The ids a store can hold: below the capacity the record at position
      `i` has id `i + 1`; in any case ids never decrease along the store and
      the record at `i` has an id between `i + 1` and `Capacity + 1`. */
  predicate IdsWellFormed(s: seq<Event>) {
    && |s| <= Capacity
    && (|s| < Capacity ==> forall i :: 0 <= i < |s| ==> s[i].id == i + 1)
    && (forall i :: 0 <= i < |s| ==> i + 1 <= s[i].id <= Capacity + 1)
    && (forall i, j :: 0 <= i < j < |s| ==> s[i].id <= s[j].id)
  }

  /** Appending keeps at most `Capacity` records: the newest, in order. */
  lemma RetainedIsLastN(s: seq<Event>, e: Event)
    requires |s| <= Capacity
    ensures Retained(s, e) == LastN(s + [e], Capacity)
  {
  }

  lemma {:induction false} LastNOfAppend<T>(h: seq<T>, e: T, n: nat)
    requires n > 0
    ensures LastN(LastN(h, n) + [e], n) == LastN(h + [e], n)
  {
    if |h| > n {
      var l := h[|h| - n..];
      assert LastN(h, n) == l;
      assert LastN(l + [e], n) == (l + [e])[1..] == l[1..] + [e];
      assert l[1..] == h[|h| + 1 - n..];
      assert LastN(h + [e], n) == (h + [e])[|h| + 1 - n..] == h[|h| + 1 - n..] + [e];
    }
  }

  /** Whatever was received, the store holds exactly the newest
      `Capacity` records, oldest first. */
  lemma {:induction false} ReceiveKeepsNewest(history: seq<Event>)
    ensures Receive(history) == LastN(history, Capacity)
    decreases |history|
  {
    if history != [] {
      var h := history[..|history| - 1];
      var e := history[|history| - 1];
      assert h + [e] == history;
      calc {
        Receive(history);
        Retained(Receive(h), e);
        { ReceiveKeepsNewest(h); }
        Retained(LastN(h, Capacity), e);
        { RetainedIsLastN(LastN(h, Capacity), e); }
        LastN(LastN(h, Capacity) + [e], Capacity);
        { LastNOfAppend(h, e, Capacity); }
        LastN(history, Capacity);
      }
    }
  }

  /** A store with well-formed ids keeps them when it receives the record
      numbered `len(events_storage) + 1`. */
  lemma {:induction false} RetainedKeepsIds(s: seq<Event>, e: Event)
    requires IdsWellFormed(s) && e.id == |s| + 1
    ensures IdsWellFormed(Retained(s, e))
  {
    var r := Retained(s, e);
    if |s| < Capacity {
      assert r == s + [e];
      assert forall i :: 0 <= i < |s| ==> r[i] == s[i];
    } else {
      assert r == s[1..] + [e];
      assert forall i :: 0 <= i < |s| - 1 ==> r[i] == s[i + 1];
    }
  }

  /** Once the store is full every new record gets id `Capacity + 1`, so
      ids repeat: two records received in a row carry the same id. */
  lemma {:induction false} IdsRepeatWhenFull(s: seq<Event>, first: Event, second: Event)
    requires |s| == Capacity && first.id == |s| + 1
    requires second.id == |Retained(s, first)| + 1
    ensures |Retained(Retained(s, first), second)| == Capacity
    ensures first.id == second.id == Capacity + 1
  {
    assert |Retained(s, first)| == Capacity;
  }

  /** The record just stored is listed first. */
  lemma NewestListedFirst(s: seq<Event>, e: Event)
    ensures Reversed(Retained(s, e))[0] == e
  {
  }

  /** The store itself, `events_storage`. */
  class EventStore {
    var events: seq<Event>

    ghost predicate Valid()
      reads this
    {
      IdsWellFormed(events)
    }

    constructor ()
      ensures events == [] && Valid()
    {
      events := [];
    }

    /** `events_storage.append(e)`, then `pop(0)` while beyond capacity. */
    method Append(e: Event)
      requires Valid() && e.id == |events| + 1
      modifies this
      ensures events == Retained(old(events), e)
      ensures Valid()
    {
      RetainedKeepsIds(events, e);
      events := events + [e];
      if |events| > Capacity {
        events := events[1..];
      }
    }

    /** `process_webhook_event`: the record is numbered after the records
        the store holds, and kept in memory unless the primary database took
        it. */
    method ProcessWebhookEvent(payload: Json, env: Env, primary: Primary) returns (r: Option<Event>)
      requires Valid()
      modifies this
      ensures r == Normalize(payload, old(|events|) + 1, env)
      ensures r.Some? ==> r.value.id == old(|events|) + 1
      ensures events == if r.Some? && primary != PrimaryStored then Retained(old(events), r.value)
                        else old(events)
      ensures Valid()
    {
      r := Normalize(payload, |events| + 1, env);
      if r.Some? {
        NormalizeSpec(payload, |events| + 1, env);
        if primary != PrimaryStored {
          Append(r.value);
        }
      }
    }

    /** `get_events` on the in-memory store: every record, newest first,
        and how many there are. */
    method List() returns (listed: seq<Event>, count: nat)
      ensures count == |events| == |listed|
      ensures forall i :: 0 <= i < |events| ==> listed[i] == events[|events| - 1 - i]
    {
      listed := Reversed(events);
      count := |events|;
    }

    /** `clear_events` on the in-memory store: it reports how many records
        it dropped and leaves the store empty, so the next id is 1 again. */
    method Clear() returns (cleared: nat)
      requires Valid()
      modifies this
      ensures cleared == old(|events|) && events == []
      ensures Valid()
    {
      cleared := |events|;
      events := [];
    }
  }
}
