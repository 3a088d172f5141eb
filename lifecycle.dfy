/**
 * The draw lifecycle of bot.ts: the shared store that the admin handlers
 * mutate, the status machine setup -> open -> closed -> settled -> (new draw)
 * setup, the settle step (per-user best ticket and the bank from paid
 * invoices, handed to the payout engine), and the event editor's void toggle,
 * result setting and event adding.
 */
module Lifecycle {
  import opened Wrappers
  import opened Tickets
  import opened Settlement

  datatype DrawStatus = Setup | Open | Closed | Settled

  /** `settlement` holds the payout engine's result once the draw is settled. */
  datatype Draw = Draw(id: nat, status: DrawStatus, events: seq<EventItem>, settlement: Option<SettlementResult>)

  /** `invoiceId` is `""` when the ticket has none. */
  datatype Ticket = Ticket(id: string, userId: int, selections: seq<seq<int>>, paid: bool, invoiceId: string)

  /** `wallet` is `""` when the user has not set one. */
  datatype UserData = UserData(hasTicketForCurrent: bool, wallet: string)

  /** A recorded invoice; `amount` in minor units of `currency`. */
  datatype Payment = Payment(userId: int, currency: Currency, amount: nat, paid: bool)

  /** The environment the handlers read: `EVENTS_COUNT`, `CURRENCY`, `PAYOUT_FORMULA` and its parameters. */
  datatype Config = Config(
    eventsCount: nat,
    currency: Currency,
    formula: string,
    equalShareParams: Params,
    tieredParams: Params,
    fixedParams: Params)

  datatype SettleError = NotClosed(status: DrawStatus) | FormulaFailed(cause: Error)

  /** The parameters handed to the formula; an unknown name falls back to the equal-share ones. */
  function ParamsFor(cfg: Config): Params {
    if cfg.formula == EqualShareKey then cfg.equalShareParams
    else if cfg.formula == TieredKey then cfg.tieredParams
    else if cfg.formula == FixedKey then cfg.fixedParams
    else cfg.equalShareParams
  }

  // ---------------------------------------------------------------------------
  // Tickets of the current draw
  // ---------------------------------------------------------------------------

  function DigitChar(d: nat): char
    requires d < 10
  {
    "0123456789"[d]
  }

  /** `String(n)` for a non-negative integer. */
  function DecimalString(n: nat): string {
    if n < 10 then [DigitChar(n)] else DecimalString(n / 10) + [DigitChar(n % 10)]
  }

  /** `t.id.startsWith(`${drawId}_`)`: ticket ids are `<drawId>_<seq>`. */
  predicate InDraw(t: Ticket, drawId: nat) {
    DecimalString(drawId) + "_" <= t.id
  }

  /** The paid tickets of the draw, in store order. */
  function DrawTickets(tickets: seq<Ticket>, drawId: nat): seq<Ticket> {
    if tickets == [] then []
    else (if InDraw(tickets[0], drawId) && tickets[0].paid then [tickets[0]] else []) + DrawTickets(tickets[1..], drawId)
  }

  lemma {:induction false} DrawTicketsSpec(tickets: seq<Ticket>, drawId: nat)
    ensures forall t :: t in DrawTickets(tickets, drawId) <==> t in tickets && InDraw(t, drawId) && t.paid
  {
    if tickets != [] {
      DrawTicketsSpec(tickets[1..], drawId);
      assert tickets == [tickets[0]] + tickets[1..];
    }
  }

  // ---------------------------------------------------------------------------
  // Per-user best ticket (bot.ts:1678-1691)
  // ---------------------------------------------------------------------------

  /** `st.users[uid]?.wallet || ''`. */
  function WalletOf(users: map<int, UserData>, uid: int): string {
    if uid in users then users[uid].wallet else ""
  }

  function TicketHits(events: seq<EventItem>, t: Ticket): nat {
    Hits(events, t.selections)
  }

  /**
   * `hitsByUserMap.set(uid, {…, hits: best})`: a user already present keeps
   * their position and the larger hit count; a new user is appended.
   */
  function Upsert(acc: seq<UserHits>, uid: int, wallet: string, hits: int): seq<UserHits> {
    if acc == [] then [UserHits(uid, wallet, hits)]
    else if acc[0].userId == uid then
      [UserHits(uid, wallet, if acc[0].hits > hits then acc[0].hits else hits)] + acc[1..]
    else [acc[0]] + Upsert(acc[1..], uid, wallet, hits)
  }

  /** The map after the loop has seen `tickets`, as the list `Array.from(map.values())` gives. */
  function Aggregate(events: seq<EventItem>, tickets: seq<Ticket>, users: map<int, UserData>): seq<UserHits> {
    if tickets == [] then []
    else
      var t := tickets[|tickets| - 1];
      Upsert(Aggregate(events, tickets[..|tickets| - 1], users), t.userId, WalletOf(users, t.userId), TicketHits(events, t))
  }

  /** The first entry of user `uid`. */
  function Lookup(acc: seq<UserHits>, uid: int): Option<UserHits> {
    if acc == [] then None else if acc[0].userId == uid then Some(acc[0]) else Lookup(acc[1..], uid)
  }

  predicate DistinctUsers(acc: seq<UserHits>) {
    forall i, j :: 0 <= i < j < |acc| ==> acc[i].userId != acc[j].userId
  }

  /** `h` is the best hit count among the tickets of user `uid`. */
  predicate IsBest(events: seq<EventItem>, tickets: seq<Ticket>, uid: int, h: int) {
    && (forall i :: 0 <= i < |tickets| && tickets[i].userId == uid ==> TicketHits(events, tickets[i]) <= h)
    && (exists i :: 0 <= i < |tickets| && tickets[i].userId == uid && TicketHits(events, tickets[i]) == h)
  }

  lemma {:induction false} LookupUpsert(acc: seq<UserHits>, uid: int, wallet: string, hits: int, x: int)
    ensures Lookup(Upsert(acc, uid, wallet, hits), x)
         == if x != uid then Lookup(acc, x)
            else match Lookup(acc, uid)
              case None => Some(UserHits(uid, wallet, hits))
              case Some(e) => Some(UserHits(uid, wallet, if e.hits > hits then e.hits else hits))
  {
    if acc != [] && acc[0].userId != uid {
      LookupUpsert(acc[1..], uid, wallet, hits, x);
    }
  }

  lemma {:induction false} UpsertDistinct(acc: seq<UserHits>, uid: int, wallet: string, hits: int)
    requires DistinctUsers(acc)
    ensures DistinctUsers(Upsert(acc, uid, wallet, hits))
    ensures forall e :: e in Upsert(acc, uid, wallet, hits) ==> e.userId == uid || e in acc
  {
    if acc == [] {
    } else if acc[0].userId == uid {
      var r := Upsert(acc, uid, wallet, hits);
      assert r[1..] == acc[1..];
      forall i, j | 0 <= i < j < |r| ensures r[i].userId != r[j].userId {
        assert r[j] == acc[j];
        if i > 0 {
          assert r[i] == acc[i];
        }
      }
    } else {
      var rest := Upsert(acc[1..], uid, wallet, hits);
      UpsertDistinct(acc[1..], uid, wallet, hits);
      UpsertDistinctHead(acc, rest, uid);
    }
  }

  /** Prepending a user absent from the rest keeps the users distinct. */
  lemma UpsertDistinctHead(acc: seq<UserHits>, rest: seq<UserHits>, uid: int)
    requires DistinctUsers(acc) && acc != [] && acc[0].userId != uid
    requires DistinctUsers(rest)
    requires forall e :: e in rest ==> e.userId == uid || e in acc[1..]
    ensures DistinctUsers([acc[0]] + rest)
    ensures forall e :: e in [acc[0]] + rest ==> e.userId == uid || e in acc
  {
    forall j | 0 <= j < |rest| ensures acc[0].userId != rest[j].userId {
      if rest[j].userId != uid {
        var k :| 0 <= k < |acc[1..]| && acc[1..][k] == rest[j];
        assert acc[k + 1] == rest[j];
      }
    }
    var r := [acc[0]] + rest;
    forall i, j | 0 <= i < j < |r| ensures r[i].userId != r[j].userId {
      assert r[j] == rest[j - 1];
      if i > 0 {
        assert r[i] == rest[i - 1];
      }
    }
  }


  lemma {:induction false} AggregateDistinct(events: seq<EventItem>, tickets: seq<Ticket>, users: map<int, UserData>)
    ensures DistinctUsers(Aggregate(events, tickets, users))
  {
    if tickets != [] {
      var t := tickets[|tickets| - 1];
      AggregateDistinct(events, tickets[..|tickets| - 1], users);
      UpsertDistinct(Aggregate(events, tickets[..|tickets| - 1], users), t.userId, WalletOf(users, t.userId), TicketHits(events, t));
    }
  }

  lemma {:induction false} AggregateLookup(events: seq<EventItem>, tickets: seq<Ticket>, users: map<int, UserData>, uid: int)
    ensures match Lookup(Aggregate(events, tickets, users), uid)
      case None => forall i :: 0 <= i < |tickets| ==> tickets[i].userId != uid
      case Some(e) => e.userId == uid && e.wallet == WalletOf(users, uid) && IsBest(events, tickets, uid, e.hits)
  {
    if tickets != [] {
      var n := |tickets|;
      var init, t := tickets[..n - 1], tickets[n - 1];
      var acc := Aggregate(events, init, users);
      AggregateLookup(events, init, users, uid);
      LookupUpsert(acc, t.userId, WalletOf(users, t.userId), TicketHits(events, t), uid);
      if t.userId == uid {
        match Lookup(acc, uid)
        case None =>
          assert IsBest(events, tickets, uid, TicketHits(events, t)) by {
            assert tickets[n - 1] == t;
            forall i | 0 <= i < n && tickets[i].userId == uid ensures TicketHits(events, tickets[i]) <= TicketHits(events, t) {
              if i < n - 1 {
                assert false;
              }
            }
          }
        case Some(e) =>
          var best := if e.hits > TicketHits(events, t) then e.hits else TicketHits(events, t);
          assert IsBest(events, tickets, uid, best) by {
            forall i | 0 <= i < n && tickets[i].userId == uid ensures TicketHits(events, tickets[i]) <= best {
              if i < n - 1 {
                assert init[i] == tickets[i];
              }
            }
            if e.hits > TicketHits(events, t) {
              var i :| 0 <= i < |init| && init[i].userId == uid && TicketHits(events, init[i]) == e.hits;
              assert tickets[i] == init[i];
            } else {
              assert tickets[n - 1] == t;
            }
          }
      } else {
        match Lookup(acc, uid)
        case None =>
          forall i | 0 <= i < n ensures tickets[i].userId != uid {
            if i < n - 1 {
              assert init[i] == tickets[i];
            }
          }
        case Some(e) =>
          assert IsBest(events, tickets, uid, e.hits) by {
            forall i | 0 <= i < n && tickets[i].userId == uid ensures TicketHits(events, tickets[i]) <= e.hits {
              assert i < n - 1;
              assert init[i] == tickets[i];
            }
            var i :| 0 <= i < |init| && init[i].userId == uid && TicketHits(events, init[i]) == e.hits;
            assert tickets[i] == init[i];
          }
      }
    }
  }

  lemma {:induction false} LookupFinds(acc: seq<UserHits>, e: UserHits)
    requires DistinctUsers(acc) && e in acc
    ensures Lookup(acc, e.userId) == Some(e)
  {
    if acc[0] != e {
      assert e in acc[1..];
      var k :| 0 <= k < |acc[1..]| && acc[1..][k] == e;
      assert acc[k + 1] == e;
      LookupFinds(acc[1..], e);
    }
  }

  lemma {:induction false} LookupIn(acc: seq<UserHits>, uid: int)
    requires Lookup(acc, uid).Some?
    ensures Lookup(acc, uid).value in acc
  {
    if acc[0].userId != uid {
      LookupIn(acc[1..], uid);
    }
  }

  /**
   * Settle aggregation: one entry per user who has a paid ticket of the
   * draw, and each entry's hits are the maximum over that user's tickets.
   */
  lemma AggregateBestTicket(events: seq<EventItem>, tickets: seq<Ticket>, users: map<int, UserData>)
    ensures var agg := Aggregate(events, tickets, users);
      && DistinctUsers(agg)
      && (forall i :: 0 <= i < |tickets| ==> exists e :: e in agg && e.userId == tickets[i].userId)
      && (forall e :: e in agg ==> e.wallet == WalletOf(users, e.userId) && IsBest(events, tickets, e.userId, e.hits))
  {
    var agg := Aggregate(events, tickets, users);
    AggregateDistinct(events, tickets, users);
    forall i | 0 <= i < |tickets| ensures exists e :: e in agg && e.userId == tickets[i].userId {
      AggregateLookup(events, tickets, users, tickets[i].userId);
      LookupIn(agg, tickets[i].userId);
    }
    forall e | e in agg ensures e.wallet == WalletOf(users, e.userId) && IsBest(events, tickets, e.userId, e.hits) {
      LookupFinds(agg, e);
      AggregateLookup(events, tickets, users, e.userId);
    }
  }

  /** The loop over the draw's paid tickets filling `hitsByUserMap`. */
  method AggregateHits(events: seq<EventItem>, tickets: seq<Ticket>, users: map<int, UserData>)
    returns (hitsByUser: seq<UserHits>)
    ensures hitsByUser == Aggregate(events, tickets, users)
  {
    hitsByUser := [];
    var i := 0;
    while i < |tickets|
      invariant 0 <= i <= |tickets|
      invariant hitsByUser == Aggregate(events, tickets[..i], users)
    {
      var t := tickets[i];
      var hits := ComputeHits(events, t.selections);
      assert tickets[..i + 1][..i] == tickets[..i];
      hitsByUser := Upsert(hitsByUser, t.userId, WalletOf(users, t.userId), hits);
      i := i + 1;
    }
    assert tickets[..i] == tickets;
  }

  // ---------------------------------------------------------------------------
  // Bank from paid invoices (bot.ts:1693-1699)
  // ---------------------------------------------------------------------------

  /** The ticket's invoice exists, is paid and is in the configured currency. */
  predicate Funded(t: Ticket, payments: map<string, Payment>, currency: Currency) {
    t.invoiceId != "" && t.invoiceId in payments
    && payments[t.invoiceId].paid && payments[t.invoiceId].currency == currency
  }

  function Contribution(t: Ticket, payments: map<string, Payment>, currency: Currency): nat {
    if Funded(t, payments, currency) then payments[t.invoiceId].amount else 0
  }

  function Bank(tickets: seq<Ticket>, payments: map<string, Payment>, currency: Currency): nat {
    if tickets == [] then 0
    else Bank(tickets[..|tickets| - 1], payments, currency) + Contribution(tickets[|tickets| - 1], payments, currency)
  }

  /** The `totalBank` accumulator loop. */
  method ComputeBank(tickets: seq<Ticket>, payments: map<string, Payment>, currency: Currency) returns (totalBank: nat)
    ensures totalBank == Bank(tickets, payments, currency)
  {
    totalBank := 0;
    var i := 0;
    while i < |tickets|
      invariant 0 <= i <= |tickets|
      invariant totalBank == Bank(tickets[..i], payments, currency)
    {
      var t := tickets[i];
      assert tickets[..i + 1][..i] == tickets[..i];
      if t.invoiceId != "" && t.invoiceId in payments {
        var inv := payments[t.invoiceId];
        if inv.paid && inv.currency == currency {
          totalBank := totalBank + inv.amount;
        }
      }
      i := i + 1;
    }
    assert tickets[..i] == tickets;
  }

  lemma {:induction false} BankAppend(a: seq<Ticket>, b: seq<Ticket>, payments: map<string, Payment>, currency: Currency)
    ensures Bank(a + b, payments, currency) == Bank(a, payments, currency) + Bank(b, payments, currency)
    decreases |b|
  {
    if b == [] {
      assert a + b == a;
    } else {
      var n := |b|;
      assert (a + b)[..|a + b| - 1] == a + b[..n - 1];
      BankAppend(a, b[..n - 1], payments, currency);
    }
  }

  /**
   * The bank is the sum of the invoice amounts of funded tickets: a ticket
   * whose invoice is missing, unpaid or in another currency adds nothing
   * wherever it stands, and a funded one adds its invoice amount.
   */
  lemma BankCountsFundedTickets(tickets: seq<Ticket>, k: nat, payments: map<string, Payment>, currency: Currency)
    requires k < |tickets|
    ensures Bank(tickets, payments, currency)
         == Bank(tickets[..k] + tickets[k + 1..], payments, currency)
            + (if Funded(tickets[k], payments, currency) then payments[tickets[k].invoiceId].amount else 0)
  {
    var a, b := tickets[..k], tickets[k + 1..];
    assert tickets == a + [tickets[k]] + b;
    BankAppend(a + [tickets[k]], b, payments, currency);
    BankAppend(a, b, payments, currency);
    assert (a + [tickets[k]])[..|a|] == a;
  }

  // ---------------------------------------------------------------------------
  // Settle (bot.ts:1661-1731)
  // ---------------------------------------------------------------------------

  /** The formula input the settle handler builds. */
  function SettleInput(draw: Draw, tickets: seq<Ticket>, users: map<int, UserData>, payments: map<string, Payment>, cfg: Config): SettlementInput {
    var paid := DrawTickets(tickets, draw.id);
    SettlementInput(DecimalString(draw.id), Bank(paid, payments, cfg.currency), PlayedCount(draw.events), Aggregate(draw.events, paid, users))
  }

  /** What settling computes: refused unless the draw is closed; the formula's error propagates. */
  ghost function SettleOutcome(draw: Draw, tickets: seq<Ticket>, users: map<int, UserData>, payments: map<string, Payment>, cfg: Config)
    : Result<SettlementResult, SettleError>
  {
    if draw.status != Closed then Failure(NotClosed(draw.status))
    else
      match Payouts(cfg.formula, SettleInput(draw, tickets, users, payments, cfg), ParamsFor(cfg))
      case Success(res) => Success(res)
      case Failure(e) => Failure(FormulaFailed(e))
  }

  /**
   * Settling a closed draw does not look at whether every non-void event has
   * a result: with the equal-share or fixed-table formula it always succeeds,
   * unresolved events simply do not count towards the maximum hits.
   */
  lemma SettleIgnoresMissingResults(draw: Draw, tickets: seq<Ticket>, users: map<int, UserData>, payments: map<string, Payment>, cfg: Config)
    requires draw.status == Closed
    requires cfg.formula == EqualShareKey || cfg.formula == FixedKey
    ensures SettleOutcome(draw, tickets, users, payments, cfg).Success?
    ensures SettleOutcome(draw, tickets, users, payments, cfg).value.maxHitsInDraw == PlayedCount(draw.events)
  {
  }

  /** An already settled (or not yet closed) draw is never settled again. */
  lemma SettleOnlyFromClosed(draw: Draw, tickets: seq<Ticket>, users: map<int, UserData>, payments: map<string, Payment>, cfg: Config)
    ensures SettleOutcome(draw, tickets, users, payments, cfg).Success? <==>
      draw.status == Closed && Payouts(cfg.formula, SettleInput(draw, tickets, users, payments, cfg), ParamsFor(cfg)).Success?
    ensures draw.status == Settled ==> SettleOutcome(draw, tickets, users, payments, cfg) == Failure(NotClosed(Settled))
  {
  }

  // ---------------------------------------------------------------------------
  // Event editor
  // ---------------------------------------------------------------------------

  /** `events.find(e => e.idx === idx)`, as a position. */
  function FindEvent(events: seq<EventItem>, idx: int): (k: Option<nat>)
    ensures k.Some? ==> (k.value < |events| && events[k.value].idx == idx
      && forall j :: 0 <= j < k.value ==> events[j].idx != idx)
    ensures k.None? ==> forall j :: 0 <= j < |events| ==> events[j].idx != idx
  {
    if events == [] then None
    else if events[0].idx == idx then Some(0)
    else match FindEvent(events[1..], idx)
      case None => None
      case Some(j) => Some(j + 1)
  }

  /** `ev.isVoid = !ev.isVoid; if (ev.isVoid) ev.result = null`. */
  function VoidToggled(e: EventItem): EventItem {
    if e.isVoid then e.(isVoid := false) else e.(isVoid := true, result := None)
  }

  /** Events numbered by position, as `ae:add` numbers them. */
  predicate Indexed(events: seq<EventItem>) {
    forall i :: 0 <= i < |events| ==> events[i].idx == i
  }

  /**
   * The void toggle: voiding an event never increases any ticket's hits (the
   * hit on that event is lost), and restoring a voided event whose result was
   * cleared leaves every ticket's hits unchanged.
   */
  lemma VoidToggleHits(events: seq<EventItem>, k: nat, sels: seq<seq<int>>)
    requires k < |events|
    ensures var events' := events[k := VoidToggled(events[k])];
      && (!events[k].isVoid ==> Hits(events', sels) == Hits(events, sels) - (if HitAt(events, sels, k) then 1 else 0))
      && (events[k].isVoid && events[k].result.None? ==> Hits(events', sels) == Hits(events, sels))
  {
    var e := VoidToggled(events[k]);
    HitsAfterEventChange(events, sels, k, e);
    if !events[k].isVoid {
      VoidingNeverIncreasesHits(events, sels, k, e);
    }
  }

  /** The position of an event in a numbered slate is its `idx`. */
  lemma FindIndexed(events: seq<EventItem>, idx: int)
    requires Indexed(events)
    ensures FindEvent(events, idx) == if 0 <= idx < |events| then Some(idx) else None
  {
    if 0 <= idx < |events| {
      assert events[idx].idx == idx;
    }
  }

  // ---------------------------------------------------------------------------
  // Status machine
  // ---------------------------------------------------------------------------

  /** The status each admin transition moves to: setup -> open -> closed -> settled -> setup. */
  function Successor(s: DrawStatus): DrawStatus {
    match s
    case Setup => Open
    case Open => Closed
    case Closed => Settled
    case Settled => Setup
  }

  /** `st.users[*].hasTicketForCurrent = false` for every user. */
  function ClearTicketFlags(users: map<int, UserData>): (r: map<int, UserData>)
    ensures r.Keys == users.Keys
    ensures forall u :: u in r ==> !r[u].hasTicketForCurrent && r[u].wallet == users[u].wallet
  {
    map u | u in users :: users[u].(hasTicketForCurrent := false)
  }

  /** The persisted store: one draw, its tickets, the users and the invoices. */
  class Store {
    var draw: Draw
    var tickets: seq<Ticket>
    var nextTicketSeq: int
    var users: map<int, UserData>
    var payments: map<string, Payment>

    /** The store `loadStore` creates when there is none. */
    constructor ()
      ensures draw == Draw(1, Setup, [], None)
      ensures tickets == [] && nextTicketSeq == 1 && users == map[] && payments == map[]
    {
      draw := Draw(1, Setup, [], None);
      tickets := [];
      nextTicketSeq := 1;
      users := map[];
      payments := map[];
    }

    /** `as:start`: only from setup, and only with exactly `EVENTS_COUNT` events. */
    method Start(cfg: Config) returns (ok: bool)
      modifies this`draw
      ensures ok == (old(draw).status == Setup && |old(draw).events| == cfg.eventsCount)
      ensures draw == if ok then old(draw).(status := Successor(old(draw).status)) else old(draw)
    {
      if draw.status != Setup {
        return false;
      }
      if |draw.events| != cfg.eventsCount {
        return false;
      }
      draw := draw.(status := Open);
      ok := true;
    }

    /** `as:close`: only from open. */
    method Close() returns (ok: bool)
      modifies this`draw
      ensures ok == (old(draw).status == Open)
      ensures draw == if ok then old(draw).(status := Successor(old(draw).status)) else old(draw)
    {
      if draw.status != Open {
        return false;
      }
      draw := draw.(status := Closed);
      ok := true;
    }

    /**
     * `as:settle`: only from closed; computes the played-event count, the
     * per-user best hits and the bank, runs the configured formula and
     * stores its result.  A formula error leaves the store as it was.
     */
    method Settle(cfg: Config) returns (r: Result<SettlementResult, SettleError>)
      modifies this`draw
      ensures r == SettleOutcome(old(draw), tickets, users, payments, cfg)
      ensures draw == if r.Success? then old(draw).(status := Successor(old(draw).status), settlement := Some(r.value)) else old(draw)
    {
      if draw.status != Closed {
        return Failure(NotClosed(draw.status));
      }
      var maxPossibleHits := PlayedCount(draw.events);
      var paid := DrawTickets(tickets, draw.id);
      var hitsByUser := AggregateHits(draw.events, paid, users);
      var totalBank := ComputeBank(paid, payments, cfg.currency);
      var input := SettlementInput(DecimalString(draw.id), totalBank, maxPossibleHits, hitsByUser);
      var result := CalculatePayouts(cfg.formula, input, ParamsFor(cfg));
      if result.Failure? {
        return Failure(FormulaFailed(result.error));
      }
      draw := draw.(status := Settled, settlement := Some(result.value));
      r := Success(result.value);
    }

    /**
     * `as:newdraw`: only from settled; the next draw id in setup with no
     * events, tickets or payments, the ticket counter back at 1, and every
     * user kept with their ticket flag cleared.
     */
    method NewDraw() returns (ok: bool)
      modifies this
      ensures ok == (old(draw).status == Settled)
      ensures ok ==> (draw == Draw(old(draw).id + 1, Successor(old(draw).status), [], None)
        && tickets == [] && payments == map[] && nextTicketSeq == 1 && users == ClearTicketFlags(old(users)))
      ensures !ok ==> (draw == old(draw) && tickets == old(tickets) && payments == old(payments)
        && nextTicketSeq == old(nextTicketSeq) && users == old(users))
    {
      if draw.status != Settled {
        return false;
      }
      draw := Draw(draw.id + 1, Setup, [], None);
      tickets := [];
      payments := map[];
      nextTicketSeq := 1;
      users := ClearTicketFlags(users);
      ok := true;
    }

    /** `ae:toggle_void:<idx>`: flips the first event with that `idx`; voiding clears its result. */
    method ToggleVoid(idx: int) returns (found: bool)
      modifies this`draw
      ensures found == FindEvent(old(draw).events, idx).Some?
      ensures draw == if found
        then var k := FindEvent(old(draw).events, idx).value;
             old(draw).(events := old(draw).events[k := VoidToggled(old(draw).events[k])])
        else old(draw)
      ensures Indexed(old(draw).events) ==> Indexed(draw.events)
    {
      var k := FindEvent(draw.events, idx);
      if k.None? {
        return false;
      }
      var ev := draw.events[k.value];
      ev := ev.(isVoid := !ev.isVoid);
      if ev.isVoid {
        ev := ev.(result := None);
      }
      draw := draw.(events := draw.events[k.value := ev]);
      found := true;
    }

    /** `ae:result:<idx>:<result>`: sets or clears the result of the first event with that `idx`. */
    method SetResult(idx: int, result: Option<int>) returns (found: bool)
      modifies this`draw
      ensures found == FindEvent(old(draw).events, idx).Some?
      ensures draw == if found
        then var k := FindEvent(old(draw).events, idx).value;
             old(draw).(events := old(draw).events[k := old(draw).events[k].(result := result)])
        else old(draw)
      ensures Indexed(old(draw).events) ==> Indexed(draw.events)
    {
      var k := FindEvent(draw.events, idx);
      if k.None? {
        return false;
      }
      draw := draw.(events := draw.events[k.value := draw.events[k.value].(result := result)]);
      found := true;
    }

    /** `ae:add`: the request is refused once the slate has `EVENTS_COUNT` events. */
    method RequestAddEvent(cfg: Config) returns (accepted: bool)
      ensures accepted <==> |draw.events| < cfg.eventsCount
    {
      accepted := !(|draw.events| >= cfg.eventsCount);
    }

    /**
     * The title message that completes `ae:add`: the new event is numbered
     * by the slate's length, has no result and is not void.
     */
    method AppendEvent(title: string)
      modifies this`draw
      ensures draw == old(draw).(events := old(draw).events + [EventItem(|old(draw).events|, title, None, false)])
      ensures Indexed(old(draw).events) ==> Indexed(draw.events)
    {
      var idx := |draw.events|;
      draw := draw.(events := draw.events + [EventItem(idx, title, None, false)]);
    }
  }
}
