/** The two durable payloads of the journal: an attempt with the account it left, and a whole state of nested,
    length-framed accounts (src/record.cpp:166-407). */
module Payloads {
  import opened Types
  import opened ByteCodec
  import opened Formats
  import opened Records
  import opened Messages

  // ---------------------------------------------------------------- a nested account always fits its frame

  lemma {:induction false} ManyRows(cols: seq<Col>, items: seq<Value>)
    requires forall i :: 0 <= i < |items| ==> Shaped(Row(cols), items[i])
    ensures |EncodeMany(Row(cols), items)| == |items| * RowSize(cols)
    decreases |items|
  {
    if items != [] {
      RowLength(cols, items[0].nums);
      ManyRows(cols, items[1..]);
      OneMore(|items| - 1, RowSize(cols));
    }
  }

  lemma RowsBounded(cols: seq<Col>, v: Value, floor: nat, size: nat)
    requires RowSize(cols) == size <= 128 && Fits(Many(Row(cols), floor), v)
    ensures |Encode(Many(Row(cols), floor), v)| <= 8 + MAX_COLLECTION * 128
  {
    ManyRows(cols, v.items);
    assert |v.items| * RowSize(cols) <= MAX_COLLECTION * 128 by { Monotone(|v.items|, MAX_COLLECTION, RowSize(cols),
        128); }
  }

  lemma Monotone(a: nat, b: nat, c: nat, d: nat)
    requires a <= b && c <= d
    ensures a * c <= b * d
  {
    assert a * c <= b * c;
    assert b * c <= b * d;
  }

  lemma RowMost(f: Format, v: Value)
    requires f.Row? && |f.cols| <= 16 && (forall i :: 0 <= i < |f.cols| ==> f.cols[i].width <= 8) && Shaped(f, v)
    ensures |Encode(f, v)| <= 128
  {
    RowLength(f.cols, v.nums);
    RowSizeMost(f.cols);
  }

  lemma LedgerSize(v: Value)
    requires IsAccount(v)
    ensures Shaped(ACCOUNT_LEDGER, v.first) && |Encode(ACCOUNT_LEDGER, v.first)| <= 512
  {
    PairParts(CONFIG, ERA, TOTALS, LATCH, v.first);
    RowMost(CONFIG, v.first.first.first);
    RowMost(ERA, v.first.first.second);
    RowMost(TOTALS, v.first.second.first);
    RowMost(LATCH, v.first.second.second);
    assert Shaped(Both(CONFIG, ERA), v.first.first) && Shaped(Both(TOTALS, LATCH), v.first.second);
    assert |Encode(Both(CONFIG, ERA), v.first.first)| <= 256;
    assert |Encode(Both(TOTALS, LATCH), v.first.second)| <= 256;
  }

  lemma PeopleSize(v: Value)
    requires Fits(ACCOUNT_PEOPLE, v)
    ensures |Encode(ACCOUNT_PEOPLE, v)| <= 2 * (8 + MAX_COLLECTION * 128)
  {
    Budgets();
    RowsBounded(INCARNATION.cols, v.first, 112, 113);
    RowsBounded(FENCE.cols, v.second, 40, 42);
  }

  lemma SlotsSize(v: Value)
    requires Fits(ACCOUNT_SLOTS, v)
    ensures |Encode(ACCOUNT_SLOTS, v)| <= 128 + 2 * (8 + MAX_COLLECTION * 128)
  {
    Budgets();
    SlotsParts(v);
    RowsBounded(AMBIGUOUS.cols, v.first, 40, 41);
    RowsBounded(SLOT.cols, v.second.second, 16, 16);
    RowMost(COUNTERS, v.second.first);
    assert |Encode(Both(COUNTERS, Many(SLOT, 16)), v.second)| <= 128 + (8 + MAX_COLLECTION * 128);
  }

  /** An account the decoder admits is encoded in far less than a 32-bit length can say. */
  lemma AccountFitsFrame(v: Value)
    requires Fits(ACCOUNT, v)
    ensures Fits(Framed(ACCOUNT), v)
  {
    AccountParts(v);
    LedgerSize(v);
    assert Fits(Both(ACCOUNT_PEOPLE, ACCOUNT_SLOTS), v.second);
    PeopleSize(v.second.first);
    SlotsSize(v.second.second);
    assert |Encode(Both(ACCOUNT_PEOPLE, ACCOUNT_SLOTS), v.second)| <= 0x3000_0000;
    assert |Encode(ACCOUNT, v)| <= 0x4000_0000;
  }

  // ---------------------------------------------------------------- states

  function StateHeadNums(s: WireState): seq<nat> {
    [s.journalSequence, s.chain.lo, s.chain.hi, s.snapshots, s.stateDigest.lo, s.stateDigest.hi]
  }

  function AccountValues(xs: seq<WireAccount>): Value { Items(seq(|xs|,
      i requires 0 <= i < |xs| => AccountValue(xs[i]))) }

  function StateValue(s: WireState): Value { Pair(Nums(StateHeadNums(s)), AccountValues(s.accounts)) }

  ghost predicate IsState(v: Value) {
    v.Pair? && Fits(STATE_HEAD, v.first) && Fits(Many(Framed(ACCOUNT), 4), v.second)
  }

  lemma StateParts(v: Value)
    ensures Fits(STATE, v) <==> IsState(v)
  {}

  lemma FramedAccount(v: Value)
    ensures Fits(Framed(ACCOUNT), v) <==> IsAccount(v)
  {
    AccountParts(v);
    if Fits(ACCOUNT, v) { AccountFitsFrame(v); }
  }

  function AccountsFrom(v: Value): seq<WireAccount>
    requires Fits(Many(Framed(ACCOUNT), 4), v)
  {
    seq(|v.items|, i requires 0 <= i < |v.items| => FramedAccount(v.items[i]); AccountOf(v.items[i]))
  }

  function StateOfValue(v: Value): WireState
    requires IsState(v)
  {
    var n := v.first.nums;
    DurableState(n[0], Digest128(n[1], n[2]), n[3], AccountsFrom(v.second), Digest128(n[4], n[5]))
  }

  ghost predicate StateFits(s: WireState) {
    && s.journalSequence < TWO64 && s.snapshots < TWO64 && |s.accounts| <= MAX_COLLECTION
    && forall i :: 0 <= i < |s.accounts| ==> AccountFits(s.accounts[i])
  }

  lemma AccountsInverse(xs: seq<WireAccount>)
    requires |xs| <= MAX_COLLECTION && forall i :: 0 <= i < |xs| ==> AccountFits(xs[i])
    ensures Fits(Many(Framed(ACCOUNT), 4), AccountValues(xs)) && AccountsFrom(AccountValues(xs)) == xs
  {
    forall i | 0 <= i < |xs|
      ensures Fits(Framed(ACCOUNT), AccountValue(xs[i])) && IsAccount(AccountValue(xs[i]))
      ensures AccountOf(AccountValue(xs[i])) == xs[i]
    {
      AccountInverse(xs[i]);
      FramedAccount(AccountValue(xs[i]));
    }
  }

  lemma AccountsBack(v: Value)
    requires Fits(Many(Framed(ACCOUNT), 4), v)
    ensures AccountValues(AccountsFrom(v)) == v
    ensures |AccountsFrom(v)| <= MAX_COLLECTION && forall i :: 0 <= i < |AccountsFrom(v)| ==>
              AccountFits(AccountsFrom(v)[i])
  {
    forall i | 0 <= i < |v.items|
      ensures IsAccount(v.items[i]) && AccountValue(AccountOf(v.items[i])) == v.items[i]
      ensures AccountFits(AccountOf(v.items[i]))
    {
      FramedAccount(v.items[i]);
      AccountBack(v.items[i]);
    }
  }

  lemma StateInverse(s: WireState)
    requires StateFits(s)
    ensures IsState(StateValue(s)) && StateOfValue(StateValue(s)) == s
  {
    AccountsInverse(s.accounts);
    assert Fits(STATE_HEAD, Nums(StateHeadNums(s)));
  }

  lemma StateBack(v: Value)
    requires IsState(v)
    ensures StateValue(StateOfValue(v)) == v && StateFits(StateOfValue(v))
  {
    AccountsBack(v.second);
    assert StateHeadNums(StateOfValue(v)) == v.first.nums;
  }

  lemma AccountShaped(d: WireAccount)
    ensures Shaped(ACCOUNT, AccountValue(d))
  {
    var v := AccountValue(d);
    assert Shaped(CONFIG, v.first.first.first) && Shaped(ERA, v.first.first.second);
    assert Shaped(TOTALS, v.first.second.first) && Shaped(LATCH, v.first.second.second);
    assert Shaped(ACCOUNT_LEDGER, v.first) by {
      assert Shaped(Both(CONFIG, ERA), v.first.first) && Shaped(Both(TOTALS, LATCH), v.first.second);
    }
    assert Shaped(Many(INCARNATION, 112), v.second.first.first) && Shaped(Many(FENCE, 40), v.second.first.second);
    assert Shaped(ACCOUNT_PEOPLE, v.second.first);
    assert Shaped(ACCOUNT_SLOTS, v.second.second) by {
      assert Shaped(COUNTERS, v.second.second.second.first);
      assert Shaped(Both(COUNTERS, Many(SLOT, 16)), v.second.second.second);
    }
    assert Shaped(Both(ACCOUNT_PEOPLE, ACCOUNT_SLOTS), v.second);
  }

  lemma StateShaped(s: WireState)
    ensures Shaped(STATE, StateValue(s))
  {
    forall i | 0 <= i < |s.accounts| ensures Shaped(Framed(ACCOUNT), AccountValue(s.accounts[i])) {
      AccountShaped(s.accounts[i]);
    }
    assert Shaped(Many(Framed(ACCOUNT), 4), AccountValues(s.accounts));
  }

  function EncodeState(s: WireState): Bytes {
    StateShaped(s);
    Encode(STATE, StateValue(s))
  }

  function DecodeState(b: Bytes): Option<WireState> {
    var v := DecodeAll(STATE, b);
    if v.None? then None else
    DecodedFits(STATE, b);
    StateParts(v.value);
    Some(StateOfValue(v.value))
  }

  /** Exactly the encodings of in-bounds states decode, each to its state. */
  lemma StateDecodes(b: Bytes, s: WireState)
    ensures DecodeState(b) == Some(s) <==> StateFits(s) && b == EncodeState(s)
  {
    StateShaped(s);
    StateWellFormed();
    if DecodeState(b) == Some(s) {
      var v := DecodeAll(STATE, b).value;
      DecodedFits(STATE, b);
      StateParts(v);
      StateBack(v);
      DecodesExactly(STATE, b, v);
    }
    if StateFits(s) && b == EncodeState(s) {
      StateInverse(s);
      StateParts(StateValue(s));
      DecodesExactly(STATE, b, StateValue(s));
    }
  }

  lemma StatePrefixesAndExtensions(s: WireState, cut: nat, extra: Bytes)
    requires StateFits(s)
    ensures cut < |EncodeState(s)| ==> DecodeState(EncodeState(s)[..cut]).None?
    ensures extra != [] ==> DecodeState(EncodeState(s) + extra).None?
  {
    StateWellFormed();
    StateInverse(s);
    StateParts(StateValue(s));
    if cut < |EncodeState(s)| { PrefixesRefused(STATE, StateValue(s), cut); }
    if extra != [] { ExtensionsRefused(STATE, StateValue(s), extra); }
  }

  // ---------------------------------------------------------------- attempts

  const ATTEMPT_HEAD: Format := Both(Both(REQUEST(ENCODED_NOTE), OUTCOME), FLAGS)

  function AttemptHead(t: WireAttempt): Value {
    Pair(Pair(RequestValue(t.request), OutcomeValue(t.outcome)),
         Nums([FlagCode(t.hasAccount), FlagCode(t.createdAccount)]))
  }

  lemma AttemptHeadShaped(t: WireAttempt)
    ensures Shaped(ATTEMPT_HEAD, AttemptHead(t))
  {
    RequestShaped(ENCODED_NOTE, t.request);
    OutcomeShaped(t.outcome);
    assert Shaped(Both(REQUEST(ENCODED_NOTE), OUTCOME), AttemptHead(t).first);
    assert Shaped(FLAGS, AttemptHead(t).second);
  }

  function AttemptCounters(t: WireAttempt): Value { Nums([t.engineApplied, t.engineRefused]) }

  function EncodeAttempt(t: WireAttempt): Bytes {
    AttemptHeadShaped(t);
    AccountShaped(t.account);
    Encode(ATTEMPT_HEAD, AttemptHead(t)) + (if t.hasAccount then Encode(ACCOUNT, AccountValue(t.account)) else [])
      + Encode(COUNTERS, AttemptCounters(t))
  }

  ghost predicate IsAttemptHead(v: Value) {
    && v.Pair? && v.first.Pair? && IsRequest(ENCODED_NOTE, v.first.first) && IsOutcome(v.first.second)
    && Fits(FLAGS, v.second)
  }

  lemma AttemptHeadParts(v: Value)
    ensures Fits(ATTEMPT_HEAD, v) <==> IsAttemptHead(v)
  {
    if v.Pair? && v.first.Pair? {
      RequestParts(ENCODED_NOTE, v.first.first);
      OutcomeParts(v.first.second);
      assert Fits(Both(REQUEST(ENCODED_NOTE), OUTCOME), v.first) <==>
             Fits(REQUEST(ENCODED_NOTE), v.first.first) && Fits(OUTCOME, v.first.second);
    }
  }

  lemma ParsedFits(f: Format, b: Bytes)
    requires Decode(f, b).Some?
    ensures Fits(f, Decode(f, b).value.0)
  {
    Canonical(f, b);
  }

  /** The account of an attempt, if it says it has one; otherwise the caller's value stays. */
  function DecodeCarried(has: bool, initial: WireAccount, b: Bytes): Parsed<WireAccount> {
    if !has then Some((initial, b)) else
    var parsed := Decode(ACCOUNT, b);
    if parsed.None? then None else
    ParsedFits(ACCOUNT, b);
    AccountParts(parsed.value.0);
    Some((AccountOf(parsed.value.0), parsed.value.1))
  }

  /** The account and the two engine counters, which must end the payload. */
  function DecodeTail(request: WireRequest, outcome: WireOutcome, has: bool, created: bool, rest: Bytes,
      initial: WireAccount): Option<WireAttempt> {
    if created && (!has || !outcome.applied) then None else
    var carried := DecodeCarried(has, initial, rest);
    if carried.None? then None else
    var counters := Decode(COUNTERS, carried.value.1);
    if counters.None? || counters.value.1 != [] then None else
    ParsedFits(COUNTERS, carried.value.1);
    Some(DurableAttempt(request, outcome, has, created, carried.value.0, counters.value.0.nums[0],
                        counters.value.0.nums[1]))
  }

  /** `initial` is what the caller's account held before the call. */
  function DecodeAttempt(b: Bytes, initial: WireAccount): Option<WireAttempt> {
    var head := Decode(ATTEMPT_HEAD, b);
    if head.None? then None else
    ParsedFits(ATTEMPT_HEAD, b);
    AttemptHeadParts(head.value.0);
    var v := head.value.0;
    DecodeTail(RequestOf(ENCODED_NOTE, v.first.first), OutcomeOf(v.first.second), v.second.nums[0] == 1,
               v.second.nums[1] == 1,
               head.value.1, initial)
  }

  ghost predicate AttemptFits(t: WireAttempt) {
    && NoteFits(ENCODED_NOTE, t.request) && OutcomeFits(t.outcome)
    && (t.createdAccount ==> t.hasAccount && t.outcome.applied)
    && (t.hasAccount ==> AccountFits(t.account))
    && t.engineApplied < TWO64 && t.engineRefused < TWO64
  }

  lemma AttemptHeadInverse(t: WireAttempt)
    requires NoteFits(ENCODED_NOTE, t.request) && OutcomeFits(t.outcome)
    ensures IsAttemptHead(AttemptHead(t))
    ensures RequestOf(ENCODED_NOTE, AttemptHead(t).first.first) == t.request
    ensures OutcomeOf(AttemptHead(t).first.second) == t.outcome
  {
    hide RequestOf, OutcomeOf, IsRequest, RequestValue, OutcomeValue, Encode;
    RequestInverse(ENCODED_NOTE, t.request);
    OutcomeInverse(t.outcome);
    assert Fits(FLAGS, AttemptHead(t).second);
  }

  lemma AttemptHeadWellFormed()
    ensures WellFormed(ATTEMPT_HEAD) && WellFormed(COUNTERS) && WellFormed(ACCOUNT)
  {
    RequestWellFormed(ENCODED_NOTE);
    OutcomeWellFormed();
    AccountWellFormed();
    Widths();
    BothWellFormed(REQUEST(ENCODED_NOTE), OUTCOME);
    BothWellFormed(Both(REQUEST(ENCODED_NOTE), OUTCOME), FLAGS);
  }

  function CarriedBytes(t: WireAttempt): Bytes {
    AccountShaped(t.account);
    if t.hasAccount then Encode(ACCOUNT, AccountValue(t.account)) else []
  }

  lemma CarriedRoundTrip(t: WireAttempt, initial: WireAccount, rest: Bytes)
    requires t.hasAccount ==> AccountFits(t.account)
    requires !t.hasAccount ==> t.account == initial
    ensures DecodeCarried(t.hasAccount, initial, CarriedBytes(t) + rest) == Some((t.account, rest))
  {
    if t.hasAccount {
      AttemptHeadWellFormed();
      AccountInverse(t.account);
      AccountParts(AccountValue(t.account));
      RoundTrip(ACCOUNT, AccountValue(t.account), rest);
    } else {
      assert [] + rest == rest;
    }
  }

  lemma CountersRoundTrip(t: WireAttempt, rest: Bytes)
    requires t.engineApplied < TWO64 && t.engineRefused < TWO64
    ensures Decode(COUNTERS, Encode(COUNTERS, AttemptCounters(t)) + rest) == Some((AttemptCounters(t), rest))
  {
    AttemptHeadWellFormed();
    RoundTrip(COUNTERS, AttemptCounters(t), rest);
  }

  lemma TailRoundTrip(t: WireAttempt, initial: WireAccount, extra: Bytes)
    requires AttemptFits(t) && (!t.hasAccount ==> t.account == initial)
    ensures DecodeTail(t.request, t.outcome, t.hasAccount, t.createdAccount,
                       CarriedBytes(t) + (Encode(COUNTERS, AttemptCounters(t)) + extra), initial) ==
            if extra == [] then Some(t) else None
  {
    CarriedRoundTrip(t, initial, Encode(COUNTERS, AttemptCounters(t)) + extra);
    CountersRoundTrip(t, extra);
  }

  lemma HeadRoundTrip(t: WireAttempt, initial: WireAccount, rest: Bytes)
    requires NoteFits(ENCODED_NOTE, t.request) && OutcomeFits(t.outcome)
    ensures Shaped(ATTEMPT_HEAD, AttemptHead(t))
    ensures DecodeAttempt(Encode(ATTEMPT_HEAD, AttemptHead(t)) + rest, initial) ==
            DecodeTail(t.request, t.outcome, t.hasAccount, t.createdAccount, rest, initial)
  {
    hide Encode, DecodeTail, RequestValue, OutcomeValue, Decode, RequestOf, OutcomeOf;
    AttemptHeadShaped(t);
    AttemptHeadWellFormed();
    AttemptHeadInverse(t);
    AttemptHeadParts(AttemptHead(t));
    RoundTrip(ATTEMPT_HEAD, AttemptHead(t), rest);
    assert AttemptHead(t).second.nums == [FlagCode(t.hasAccount), FlagCode(t.createdAccount)];
  }

  lemma AttemptSplits(t: WireAttempt, extra: Bytes)
    ensures Shaped(ATTEMPT_HEAD, AttemptHead(t))
    ensures EncodeAttempt(t) + extra ==
            Encode(ATTEMPT_HEAD, AttemptHead(t)) + (CarriedBytes(t) + (Encode(COUNTERS, AttemptCounters(t)) + extra))
  {
    AttemptHeadShaped(t);
  }

  /** An attempt decodes to itself; anything after it is refused. */
  lemma AttemptRoundTrip(t: WireAttempt, initial: WireAccount, extra: Bytes)
    requires AttemptFits(t) && (!t.hasAccount ==> t.account == initial)
    ensures DecodeAttempt(EncodeAttempt(t) + extra, initial) == if extra == [] then Some(t) else None
  {
    AttemptSplits(t, extra);
    HeadRoundTrip(t, initial, CarriedBytes(t) + (Encode(COUNTERS, AttemptCounters(t)) + extra));
    TailRoundTrip(t, initial, extra);
  }

  lemma CarriedCanonical(has: bool, initial: WireAccount, b: Bytes)
    requires DecodeCarried(has, initial, b).Some?
    ensures var (d, rest) := DecodeCarried(has, initial, b).value;
            && (has ==> AccountFits(d)) && (!has ==> d == initial)
            && Shaped(ACCOUNT, AccountValue(d))
            && (if has then Encode(ACCOUNT, AccountValue(d)) else []) + rest == b
  {
    var (d, rest) := DecodeCarried(has, initial, b).value;
    AccountShaped(d);
    if has {
      ParsedFits(ACCOUNT, b);
      var (v, _) := Decode(ACCOUNT, b).value;
      AccountParts(v);
      AccountBack(v);
      Canonical(ACCOUNT, b);
    } else {
      assert [] + b == b;
    }
  }

  lemma AttemptHeadBack(v: Value, t: WireAttempt)
    requires IsAttemptHead(v)
    requires t.request == RequestOf(ENCODED_NOTE, v.first.first) && t.outcome == OutcomeOf(v.first.second)
    requires t.hasAccount == (v.second.nums[0] == 1) && t.createdAccount == (v.second.nums[1] == 1)
    ensures AttemptHead(t) == v && NoteFits(ENCODED_NOTE, t.request) && OutcomeFits(t.outcome)
  {
    hide RequestOf, OutcomeOf, IsRequest, IsOutcome, RequestValue, OutcomeValue, Encode;
    RequestBack(ENCODED_NOTE, v.first.first);
    OutcomeBack(v.first.second);
    assert v.second.nums == [FlagCode(t.hasAccount), FlagCode(t.createdAccount)];
  }

  lemma TailCanonical(request: WireRequest, outcome: WireOutcome, has: bool, created: bool, rest: Bytes,
      initial: WireAccount)
    requires DecodeTail(request, outcome, has, created, rest, initial).Some?
    ensures var t := DecodeTail(request, outcome, has, created, rest, initial).value;
            && t.request == request && t.outcome == outcome && t.hasAccount == has && t.createdAccount == created
            && (created ==> has && outcome.applied) && (has ==> AccountFits(t.account))
            && (!has ==> t.account == initial)
            && t.engineApplied < TWO64 && t.engineRefused < TWO64
            && CarriedBytes(t) + Encode(COUNTERS, AttemptCounters(t)) == rest
  {
    hide Encode, DecodeCarried, Decode, AccountValue;
    var t := DecodeTail(request, outcome, has, created, rest, initial).value;
    CarriedCanonical(has, initial, rest);
    var (d, tail) := DecodeCarried(has, initial, rest).value;
    Canonical(COUNTERS, tail);
    var (n, _) := Decode(COUNTERS, tail).value;
    assert AttemptCounters(t).nums == n.nums;
    assert Encode(COUNTERS, n) + [] == Encode(COUNTERS, n);
  }

  lemma AttemptBytes(t: WireAttempt, rest: Bytes, b: Bytes)
    requires CarriedBytes(t) + Encode(COUNTERS, AttemptCounters(t)) == rest
    requires Shaped(ATTEMPT_HEAD, AttemptHead(t)) && Encode(ATTEMPT_HEAD, AttemptHead(t)) + rest == b
    ensures EncodeAttempt(t) == b
  {
    var head := Encode(ATTEMPT_HEAD, AttemptHead(t));
    assert head + CarriedBytes(t) + Encode(COUNTERS, AttemptCounters(t)) == head + rest;
  }

  /** What the head of an accepted attempt was parsed to. */
  lemma HeadCanonical(b: Bytes, initial: WireAccount) returns (v: Value, rest: Bytes)
    requires DecodeAttempt(b, initial).Some?
    ensures IsAttemptHead(v) && Shaped(ATTEMPT_HEAD, v) && Encode(ATTEMPT_HEAD, v) + rest == b
    ensures DecodeAttempt(b, initial) ==
            DecodeTail(RequestOf(ENCODED_NOTE, v.first.first), OutcomeOf(v.first.second), v.second.nums[0] == 1,
                v.second.nums[1] == 1, rest, initial)
  {
    v, rest := Decode(ATTEMPT_HEAD, b).value.0, Decode(ATTEMPT_HEAD, b).value.1;
    Canonical(ATTEMPT_HEAD, b);
    AttemptHeadParts(v);
  }

  /** Whatever is accepted as an attempt is in bounds and re-encodes to the same bytes. */
  lemma AttemptCanonical(b: Bytes, initial: WireAccount)
    requires DecodeAttempt(b, initial).Some?
    ensures var t := DecodeAttempt(b, initial).value;
            AttemptFits(t) && (!t.hasAccount ==> t.account == initial) && EncodeAttempt(t) == b
  {
    var v, rest := HeadCanonical(b, initial);
    var t := DecodeAttempt(b, initial).value;
    TailCanonical(RequestOf(ENCODED_NOTE, v.first.first), OutcomeOf(v.first.second), v.second.nums[0] == 1,
        v.second.nums[1] == 1, rest, initial);
    AttemptHeadBack(v, t);
    AttemptBytes(t, rest, b);
  }

  /** Exactly the encodings of in-bounds attempts decode, each to its attempt. */
  lemma AttemptDecodes(b: Bytes, initial: WireAccount, t: WireAttempt)
    ensures DecodeAttempt(b, initial) == Some(t) <==>
              AttemptFits(t) && (!t.hasAccount ==> t.account == initial) && b == EncodeAttempt(t)
  {
    hide DecodeAttempt, AttemptFits, EncodeAttempt;
    if DecodeAttempt(b, initial) == Some(t) { AttemptCanonical(b, initial); }
    if AttemptFits(t) && (!t.hasAccount ==> t.account == initial) && b == EncodeAttempt(t) {
      AttemptRoundTrip(t, initial, []);
      assert b + [] == b;
    }
  }

  /** Every strict prefix and every extension of an attempt is refused. */
  lemma AttemptPrefixesAndExtensions(t: WireAttempt, initial: WireAccount, cut: nat, extra: Bytes)
    requires AttemptFits(t) && (!t.hasAccount ==> t.account == initial)
    ensures cut < |EncodeAttempt(t)| ==> DecodeAttempt(EncodeAttempt(t)[..cut], initial).None?
    ensures extra != [] ==> DecodeAttempt(EncodeAttempt(t) + extra, initial).None?
  {
    hide EncodeAttempt, DecodeAttempt;
    var e := EncodeAttempt(t);
    AttemptRoundTrip(t, initial, extra);
    if cut < |e| && DecodeAttempt(e[..cut], initial).Some? {
      var short := DecodeAttempt(e[..cut], initial).value;
      assert e == e[..cut] + e[cut..];
      AttemptDecodes(e, initial, t);
      AttemptCanonical(e[..cut], initial);
      AttemptRoundTrip(short, initial, e[cut..]);
    }
  }
}
