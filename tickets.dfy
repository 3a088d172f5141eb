/**
 * Tickets in bot.ts: the combination pricer (strict policy), the hit counter,
 * and a user's betting session whose per-event selections are toggled in
 * place.
 *
 * An outcome is 0 ('1'), 1 ('X') or 2 ('2'); a selection is the list of
 * outcomes a ticket picks for one event, and a ticket holds one selection per
 * event of the slate.
 */
module Tickets {
  import opened Wrappers

  /** An event of the slate; `result` is `None` while unresolved. */
  datatype EventItem = EventItem(idx: int, title: string, result: Option<int>, isVoid: bool)

  datatype Currency = TON | USDT_TON

  // ---------------------------------------------------------------------------
  // Combination pricing (bot.ts:78-97)
  // ---------------------------------------------------------------------------

  /** The product of the selection lengths. */
  function Product(sels: seq<seq<int>>): nat {
    if sels == [] then 1 else Product(sels[..|sels| - 1]) * |sels[|sels| - 1]|
  }

  /** A slate with at least one event and no empty selection. */
  predicate Complete(sels: seq<seq<int>>) {
    sels != [] && forall i :: 0 <= i < |sels| ==> sels[i] != []
  }

  /** The strict policy: an empty slate or any empty selection gives 0 combinations. */
  function Combinations(sels: seq<seq<int>>): nat {
    if Complete(sels) then Product(sels) else 0
  }

  /** `countCombinations`: the loop multiplying `prod`, bailing out on an empty selection. */
  method CountCombinations(selections: seq<seq<int>>) returns (combos: nat)
    ensures combos == Combinations(selections)
  {
    if |selections| == 0 {
      return 0;
    }
    var prod := 1;
    var i := 0;
    while i < |selections|
      invariant 0 <= i <= |selections|
      invariant prod == Product(selections[..i])
      invariant forall k :: 0 <= k < i ==> selections[k] != []
    {
      var len := |selections[i]|;
      if len == 0 {
        return 0;
      }
      assert selections[..i + 1][..i] == selections[..i];
      prod := prod * len;
      i := i + 1;
    }
    assert selections[..i] == selections;
    return prod;
  }

  lemma {:induction false} ProductPositive(sels: seq<seq<int>>)
    requires forall i :: 0 <= i < |sels| ==> sels[i] != []
    ensures Product(sels) > 0
  {
    if sels != [] {
      ProductPositive(sels[..|sels| - 1]);
    }
  }

  /** A ticket is priceable exactly when the slate is non-empty and every selection is. */
  lemma CombinationsZero(sels: seq<seq<int>>)
    ensures Combinations(sels) == 0 <==> sels == [] || exists i :: 0 <= i < |sels| && sels[i] == []
  {
    if Complete(sels) {
      ProductPositive(sels);
    }
  }

  lemma {:induction false} ProductMonotone(sels: seq<seq<int>>, k: nat, t: seq<int>)
    requires k < |sels| && |t| >= |sels[k]|
    ensures Product(sels[k := t]) >= Product(sels)
  {
    var n := |sels|;
    var init, init' := sels[..n - 1], sels[k := t][..n - 1];
    if k == n - 1 {
      assert init' == init;
      MulLe(Product(init), Product(init), |sels[k]|, |t|);
    } else {
      assert init' == init[k := t];
      ProductMonotone(init, k, t);
      MulLe(Product(init), Product(init'), |sels[n - 1]|, |sels[n - 1]|);
    }
  }

  lemma MulLe(x: nat, y: nat, m: nat, n: nat)
    requires x <= y && m <= n
    ensures x * m <= y * n
  {
    assert x * m <= y * m by { assert (y - x) * m >= 0; }
    assert y * m <= y * n by { assert y * (n - m) >= 0; }
  }


  /** Adding an outcome to any event's selection never decreases the combination count. */
  lemma CombinationsMonotone(sels: seq<seq<int>>, k: nat, o: int)
    requires k < |sels|
    ensures Combinations(sels[k := sels[k] + [o]]) >= Combinations(sels)
  {
    var sels' := sels[k := sels[k] + [o]];
    if Complete(sels) {
      assert Complete(sels') by {
        forall i | 0 <= i < |sels'| ensures sels'[i] != [] {
          if i == k {
            assert |sels'[i]| == |sels[k]| + 1;
          }
        }
      }
      ProductMonotone(sels, k, sels[k] + [o]);
    }
  }

  /** The two priced examples: one combination for single picks, two with a double pick. */
  lemma CombinationsExamples()
    ensures Combinations([[0], [1]]) == 1
    ensures Combinations([[0, 1], [1]]) == 2
    ensures Combinations([[0, 1, 2], [1], []]) == 0
  {
    var a: seq<seq<int>> := [[0], [1]];
    assert a[..1] == [[0]] && a[..1][..0] == [];
    assert Product(a[..1]) == 1;
    assert Product(a) == 1;
    var b: seq<seq<int>> := [[0, 1], [1]];
    assert b[..1] == [[0, 1]] && b[..1][..0] == [];
    assert Product(b[..1]) == 2;
    assert Product(b) == 2;
    var c: seq<seq<int>> := [[0, 1, 2], [1], []];
    assert c[2] == [];
  }

  /** `calcStakeRUB`: the combinations times the per-combination stake. */
  method CalcStakeRub(selections: seq<seq<int>>, stakeRub: int) returns (stake: int)
    ensures stake == Combinations(selections) * stakeRub
    ensures !Complete(selections) ==> stake == 0
  {
    var combos := CountCombinations(selections);
    stake := combos * stakeRub;
  }

  /** `calcStakeCrypto`: the combinations times the stake of the configured currency (minor units). */
  method CalcStakeCrypto(selections: seq<seq<int>>, currency: Currency, stakeTon: int, stakeUsdt: int)
    returns (stake: int)
    ensures stake == Combinations(selections) * (if currency == USDT_TON then stakeUsdt else stakeTon)
    ensures !Complete(selections) ==> stake == 0
  {
    var combos := CountCombinations(selections);
    stake := combos * (if currency == USDT_TON then stakeUsdt else stakeTon);
  }

  // ---------------------------------------------------------------------------
  // Hit counting (bot.ts:301-316)
  // ---------------------------------------------------------------------------

  /** An event takes part in scoring: it has a result and is not void. */
  predicate Played(e: EventItem) {
    e.result.Some? && !e.isVoid
  }

  /** `playedEventsCount`: how many events of the slate are played. */
  function PlayedCount(events: seq<EventItem>): (n: nat)
    ensures n <= |events|
    ensures n == 0 <==> forall i :: 0 <= i < |events| ==> !Played(events[i])
    ensures n == |events| <==> forall i :: 0 <= i < |events| ==> Played(events[i])
  {
    if events == [] then 0
    else
      var init, last := events[..|events| - 1], events[|events| - 1];
      assert forall i :: 0 <= i < |init| ==> init[i] == events[i];
      PlayedCount(init) + (if Played(last) then 1 else 0)
  }

  /** `ticket.selections[i] || []`: a missing selection reads as empty. */
  function SelectionAt(sels: seq<seq<int>>, i: nat): seq<int> {
    if i < |sels| then sels[i] else []
  }

  /** Event `i` is a hit: played, and the ticket's selection contains its result. */
  predicate HitAt(events: seq<EventItem>, sels: seq<seq<int>>, i: nat)
    requires i < |events|
  {
    Played(events[i]) && events[i].result.value in SelectionAt(sels, i)
  }

  /** The hits among the first `n` events. */
  function HitsUpTo(events: seq<EventItem>, sels: seq<seq<int>>, n: nat): nat
    requires n <= |events|
  {
    if n == 0 then 0 else HitsUpTo(events, sels, n - 1) + (if HitAt(events, sels, n - 1) then 1 else 0)
  }

  function Hits(events: seq<EventItem>, sels: seq<seq<int>>): nat {
    HitsUpTo(events, sels, |events|)
  }

  /** `computeHits`: the loop over the slate counting hits. */
  method ComputeHits(events: seq<EventItem>, selections: seq<seq<int>>) returns (hits: nat)
    ensures hits == Hits(events, selections)
  {
    hits := 0;
    var i := 0;
    while i < |events|
      invariant 0 <= i <= |events|
      invariant hits == HitsUpTo(events, selections, i)
    {
      var ev := events[i];
      if ev.result.None? || ev.isVoid {
        i := i + 1;
        continue;
      }
      var sel := if i < |selections| then selections[i] else [];
      if ev.result.value in sel {
        hits := hits + 1;
      }
      i := i + 1;
    }
  }

  lemma {:induction false} HitsUpToBound(events: seq<EventItem>, sels: seq<seq<int>>, n: nat)
    requires n <= |events|
    ensures HitsUpTo(events, sels, n) <= PlayedCount(events[..n])
  {
    if n > 0 {
      HitsUpToBound(events, sels, n - 1);
      assert events[..n][..n - 1] == events[..n - 1];
    }
  }

  /** A ticket never scores more hits than there are played events. */
  lemma HitsAtMostPlayed(events: seq<EventItem>, sels: seq<seq<int>>)
    ensures Hits(events, sels) <= PlayedCount(events)
  {
    HitsUpToBound(events, sels, |events|);
    assert events[..|events|] == events;
  }

  lemma {:induction false} HitsUpToUpdate(events: seq<EventItem>, sels: seq<seq<int>>, k: nat, e: EventItem, n: nat)
    requires k < |events| && n <= |events|
    ensures var events' := events[k := e];
      HitsUpTo(events', sels, n) + (if k < n && HitAt(events, sels, k) then 1 else 0)
      == HitsUpTo(events, sels, n) + (if k < n && HitAt(events', sels, k) then 1 else 0)
  {
    if n > 0 {
      HitsUpToUpdate(events, sels, k, e, n - 1);
    }
  }

  /**
   * Replacing event `k` changes a ticket's hits only through event `k`:
   * the hit it scored there is lost and the hit it scores on the new event
   * is gained.
   */
  lemma HitsAfterEventChange(events: seq<EventItem>, sels: seq<seq<int>>, k: nat, e: EventItem)
    requires k < |events|
    ensures Hits(events[k := e], sels) + (if HitAt(events, sels, k) then 1 else 0)
         == Hits(events, sels) + (if HitAt(events[k := e], sels, k) then 1 else 0)
  {
    HitsUpToUpdate(events, sels, k, e, |events|);
  }

  /**
   * Voiding an event takes it out of scoring: a ticket loses exactly the hit
   * it had on that event, so its hits never increase.
   */
  lemma VoidingNeverIncreasesHits(events: seq<EventItem>, sels: seq<seq<int>>, k: nat, e: EventItem)
    requires k < |events| && e.isVoid
    ensures Hits(events[k := e], sels) == Hits(events, sels) - (if HitAt(events, sels, k) then 1 else 0)
    ensures Hits(events[k := e], sels) <= Hits(events, sels)
  {
    HitsAfterEventChange(events, sels, k, e);
  }

  /** The two scored examples: both single picks hit, and a double pick still counts once. */
  lemma HitsExamples()
    ensures var events := [EventItem(0, "a", Some(0), false), EventItem(1, "b", Some(1), false)];
      Hits(events, [[0], [1]]) == 2 && Hits(events, [[0, 1], [1]]) == 2
  {
  }

  // ---------------------------------------------------------------------------
  // Selection toggle (bot.ts:864-894)
  // ---------------------------------------------------------------------------

  predicate StrictlySorted(s: seq<int>) {
    forall i, j :: 0 <= i < j < |s| ==> s[i] < s[j]
  }

  /** `Array.prototype.indexOf`: the first position of `x`, or -1. */
  function IndexOf(s: seq<int>, x: int): (i: int)
    ensures -1 <= i < |s|
    ensures i >= 0 ==> s[i] == x && x !in s[..i]
    ensures i < 0 ==> x !in s
  {
    if s == [] then -1
    else if s[0] == x then 0
    else
      var j := IndexOf(s[1..], x);
      assert j >= 0 ==> s[..j + 1] == [s[0]] + s[1..][..j];
      if j < 0 then -1 else j + 1
  }

  /** `push` followed by `sort` on a sorted selection: `o` lands in its ordered place. */
  function Insert(s: seq<int>, o: int): seq<int> {
    if s == [] then [o]
    else if o < s[0] then [o] + s
    else [s[0]] + Insert(s[1..], o)
  }

  /** The toggle: remove the outcome if present, otherwise add it in order. */
  function Toggled(s: seq<int>, o: int): seq<int> {
    var i := IndexOf(s, o);
    if i >= 0 then s[..i] + s[i + 1..] else Insert(s, o)
  }

  lemma {:induction false} InsertSpec(s: seq<int>, o: int)
    requires StrictlySorted(s) && o !in s
    ensures StrictlySorted(Insert(s, o))
    ensures forall x :: x in Insert(s, o) <==> x in s || x == o
  {
    if s != [] && o >= s[0] {
      InsertSpec(s[1..], o);
      var t := Insert(s[1..], o);
      forall x | x in t ensures s[0] < x {
        if x != o {
          var k :| 1 <= k < |s| && s[k] == x;
        }
      }
    }
  }

  /** `splice(i, 1)` keeps a sorted selection sorted. */
  lemma RemoveAtSorted(s: seq<int>, i: nat)
    requires StrictlySorted(s) && i < |s|
    ensures StrictlySorted(s[..i] + s[i + 1..])
  {
    var t := s[..i] + s[i + 1..];
    forall a, b | 0 <= a < b < |t| ensures t[a] < t[b] {
      var a', b' := if a < i then a else a + 1, if b < i then b else b + 1;
      assert t[a] == s[a'] && t[b] == s[b'];
    }
  }

  /** `splice(i, 1)` on a duplicate-free selection removes exactly the outcome at `i`. */
  lemma RemoveAtMembers(s: seq<int>, i: nat)
    requires StrictlySorted(s) && i < |s|
    ensures forall x :: x in s[..i] + s[i + 1..] <==> (x in s && x != s[i])
  {
    var t := s[..i] + s[i + 1..];
    forall x ensures x in t <==> (x in s && x != s[i]) {
      if x in t {
        var k :| 0 <= k < |t| && t[k] == x;
        var k' := if k < i then k else k + 1;
        assert s[k'] == x && k' != i;
      }
      if x in s && x != s[i] {
        var k :| 0 <= k < |s| && s[k] == x;
        if k < i { assert t[k] == x; } else { assert t[k - 1] == x; }
      }
    }
  }

  /** Toggling keeps a selection sorted and free of duplicates, and flips membership of exactly `o`. */
  lemma ToggledSpec(s: seq<int>, o: int)
    requires StrictlySorted(s)
    ensures StrictlySorted(Toggled(s, o))
    ensures forall x :: x in Toggled(s, o) <==> (x in s <==> x != o)
  {
    var i := IndexOf(s, o);
    if i >= 0 {
      RemoveAtSorted(s, i);
      RemoveAtMembers(s, i);
    } else {
      InsertSpec(s, o);
    }
  }

  /** Two sorted duplicate-free selections with the same outcomes are equal. */
  lemma {:induction false} SortedUnique(a: seq<int>, b: seq<int>)
    requires StrictlySorted(a) && StrictlySorted(b)
    requires forall x :: x in a <==> x in b
    ensures a == b
  {
    if a != [] && b != [] {
      assert a[0] == b[0] by {
        assert a[0] in a && b[0] in b;
        var i :| 0 <= i < |b| && b[i] == a[0];
        var j :| 0 <= j < |a| && a[j] == b[0];
      }
      forall x ensures x in a[1..] <==> x in b[1..] {
        if x in a[1..] {
          TailMember(a, b, x);
        }
        if x in b[1..] {
          TailMember(b, a, x);
        }
      }
      SortedUnique(a[1..], b[1..]);
      assert a == [a[0]] + a[1..] && b == [b[0]] + b[1..];
    } else if a != [] {
      HeadIn(a);
      assert false;
    } else if b != [] {
      HeadIn(b);
      assert false;
    }
  }

  /** With equal heads and equal members, a tail member of one is a tail member of the other. */
  lemma TailMember(a: seq<int>, b: seq<int>, x: int)
    requires StrictlySorted(a) && StrictlySorted(b)
    requires a != [] && b != [] && a[0] == b[0]
    requires forall y :: y in a <==> y in b
    requires x in a[1..]
    ensures x in b[1..]
  {
    var k :| 1 <= k < |a| && a[k] == x;
    assert x in b && x != b[0];
    var m :| 0 <= m < |b| && b[m] == x;
    assert b[1..][m - 1] == x;
  }


  lemma HeadIn(s: seq<int>)
    requires s != []
    ensures s[0] in s
  {
  }

  /** Toggling the same outcome twice restores a sorted selection. */
  lemma ToggleTwice(s: seq<int>, o: int)
    requires StrictlySorted(s)
    ensures Toggled(Toggled(s, o), o) == s
  {
    ToggledSpec(s, o);
    ToggledSpec(Toggled(s, o), o);
    SortedUnique(Toggled(Toggled(s, o), o), s);
  }

  lemma {:induction false} InsertAt(s: seq<int>, o: int, j: nat)
    requires j <= |s|
    requires forall k :: 0 <= k < j ==> s[k] < o
    requires forall k :: j <= k < |s| ==> s[k] > o
    ensures Insert(s, o) == s[..j] + [o] + s[j..]
  {
    if j > 0 {
      InsertAt(s[1..], o, j - 1);
      assert s[..j] == [s[0]] + s[1..][..j - 1];
      assert s[j..] == s[1..][j - 1..];
    } else if s != [] {
      assert s[..0] == [] && s[0..] == s;
    }
  }

  /** `sel.push(outcome); sel.sort()` on a sorted selection that lacks `outcome`. */
  method PushSorted(sel: seq<int>, o: int) returns (r: seq<int>)
    requires StrictlySorted(sel) && o !in sel
    ensures r == Insert(sel, o)
  {
    r := sel + [o];
    var j := |sel|;
    while j > 0 && r[j - 1] > r[j]
      invariant 0 <= j <= |sel|
      invariant r == sel[..j] + [o] + sel[j..]
      invariant forall k :: j <= k < |sel| ==> sel[k] > o
    {
      assert r[j - 1] == sel[j - 1] && r[j] == o;
      r := r[j - 1 := o][j := sel[j - 1]];
      assert r == sel[..j - 1] + [o] + sel[j - 1..];
      j := j - 1;
    }
    assert j > 0 ==> r[j - 1] == sel[j - 1] && r[j] == o;
    forall k | 0 <= k < j ensures sel[k] < o {
      assert sel[k] <= sel[j - 1];
      assert sel[j - 1] != o by {
        assert sel[j - 1] in sel;
      }
    }
    InsertAt(sel, o, j);
  }

  /** Every selection of a session is sorted and duplicate-free. */
  predicate SessionSorted(selections: seq<seq<int>>) {
    forall i :: 0 <= i < |selections| ==> StrictlySorted(selections[i])
  }

  /**
   * The selections as `session.selections[eventIdx] = sel` leaves them: an
   * index past the end first extends the list with empty selections (the
   * holes JavaScript leaves read as empty everywhere).
   */
  function Padded(selections: seq<seq<int>>, eventIdx: nat): (r: seq<seq<int>>)
    ensures |r| > eventIdx && |r| >= |selections|
    ensures forall i :: 0 <= i < |r| ==> r[i] == SelectionAt(selections, i)
  {
    if eventIdx < |selections| then selections
    else selections + seq(eventIdx + 1 - |selections|, _ => [])
  }

  /** The splice-or-push-and-sort on one selection. */
  method ToggleSelection(sel: seq<int>, o: int) returns (r: seq<int>)
    requires StrictlySorted(sel)
    ensures r == Toggled(sel, o)
  {
    var idx := IndexOf(sel, o);
    if idx >= 0 {
      r := sel[..idx] + sel[idx + 1..];
    } else {
      r := PushSorted(sel, o);
    }
  }

  lemma ToggleKeepsSessionSorted(selections: seq<seq<int>>, eventIdx: nat, outcome: int)
    requires SessionSorted(selections)
    ensures SessionSorted(Padded(selections, eventIdx)[eventIdx := Toggled(SelectionAt(selections, eventIdx), outcome)])
  {
    var p := Padded(selections, eventIdx);
    ToggledSpec(SelectionAt(selections, eventIdx), outcome);
    forall i | 0 <= i < |p| ensures StrictlySorted(p[i]) {
      assert p[i] == SelectionAt(selections, i);
    }
  }

  /** A user's picks while building a ticket. */
  class Session {
    var selections: seq<seq<int>>

    /** `play`: one empty selection per event of the slate. */
    constructor (totalEvents: nat)
      ensures selections == seq(totalEvents, _ => [])
      ensures SessionSorted(selections)
    {
      selections := seq(totalEvents, _ => []);
    }

    /**
     * `ps:toggle:<eventIdx>:<outcome>`: an index outside the first
     * `min(EVENTS_COUNT, events.length)` events is ignored; otherwise the
     * outcome is removed from the event's selection if present and added in
     * order if not.  Only that event's selection changes.
     */
    method Toggle(eventIdx: nat, outcome: int, eventsCount: nat, slateLength: nat)
      requires 0 <= outcome <= 2
      requires SessionSorted(selections)
      modifies this
      ensures SessionSorted(selections)
      ensures eventIdx >= eventsCount || eventIdx >= slateLength ==> selections == old(selections)
      ensures eventIdx < eventsCount && eventIdx < slateLength ==>
        selections == Padded(old(selections), eventIdx)[eventIdx := Toggled(SelectionAt(old(selections), eventIdx), outcome)]
    {
      var totalEvents := if eventsCount < slateLength then eventsCount else slateLength;
      if eventIdx >= totalEvents {
        return;
      }
      var current := SelectionAt(selections, eventIdx);
      assert StrictlySorted(current);
      var sel := ToggleSelection(current, outcome);
      ToggleKeepsSessionSorted(selections, eventIdx, outcome);
      selections := Padded(selections, eventIdx)[eventIdx := sel];
    }
  }
}
