/** Whole messages and durable payloads: what is accepted, exactly (src/wire.cpp:361-390, src/record.cpp:166-407). */
module Messages {
  import opened Types
  import opened ByteCodec
  import opened Formats
  import opened Records

  // ---------------------------------------------------------------- well-formedness

  lemma RequestWellFormed(maxNote: nat)
    ensures WellFormed(REQUEST(maxNote))
  {
    Widths();
    BothWellFormed(Both(REQUEST_HEAD, AUTHORITY), Both(PRESENTER, NAMES));
    BothWellFormed(Both(PROOFS, CONFIG), Both(REQUEST_TAIL, Text(maxNote)));
  }

  lemma BothWellFormed(x: Format, y: Format)
    requires WellFormed(x) && WellFormed(y)
    ensures WellFormed(Both(x, y))
  {}

  lemma OutcomeWellFormed()
    ensures WellFormed(OUTCOME)
  {
    Widths();
    BothWellFormed(Both(OUTCOME_HEAD, AUTHORITY), Both(VIEW, OUTCOME_TAIL));
  }

  lemma AccountWellFormed()
    ensures WellFormed(ACCOUNT)
  {
    hide WellFormed, RowSize;
    Budgets();
    RowsWellFormed();
    BothWellFormed(CONFIG, ERA);
    BothWellFormed(TOTALS, LATCH);
    BothWellFormed(Both(CONFIG, ERA), Both(TOTALS, LATCH));
    ManyWellFormed(INCARNATION, 112);
    ManyWellFormed(FENCE, 40);
    BothWellFormed(Many(INCARNATION, 112), Many(FENCE, 40));
    ManyWellFormed(SLOT, 16);
    BothWellFormed(COUNTERS, Many(SLOT, 16));
    ManyWellFormed(AMBIGUOUS, 40);
    BothWellFormed(Many(AMBIGUOUS, 40), Both(COUNTERS, Many(SLOT, 16)));
    BothWellFormed(ACCOUNT_PEOPLE, ACCOUNT_SLOTS);
    BothWellFormed(ACCOUNT_LEDGER, Both(ACCOUNT_PEOPLE, ACCOUNT_SLOTS));
  }

  lemma ManyWellFormed(item: Format, floor: nat)
    requires WellFormed(item) && item.Row? && floor <= RowSize(item.cols)
    ensures WellFormed(Many(item, floor))
  {}

  lemma RowsWellFormed()
    ensures WellFormed(CONFIG) && WellFormed(ERA) && WellFormed(TOTALS) && WellFormed(LATCH)
    ensures WellFormed(INCARNATION) && WellFormed(FENCE) && WellFormed(AMBIGUOUS) && WellFormed(SLOT)
    ensures WellFormed(COUNTERS)
  {
    hide Pow256;
    Widths();
  }

  lemma StateWellFormed()
    ensures WellFormed(STATE)
  {
    Widths();
    AccountWellFormed();
    assert WellFormed(Framed(ACCOUNT)) && MinSize(Framed(ACCOUNT)) == 4;
    BothWellFormed(STATE_HEAD, Many(Framed(ACCOUNT), 4));
  }

  // ---------------------------------------------------------------- requests

  lemma RequestShaped(maxNote: nat, r: WireRequest)
    ensures Shaped(REQUEST(maxNote), RequestValue(r))
  {
    RequestRowsFit(r);
    AuthorityInverse(r.authority);
    ConfigInverse(r.config);
    var v := RequestValue(r);
    assert Shaped(Both(Both(REQUEST_HEAD, AUTHORITY), Both(PRESENTER, NAMES)), v.first) by {
      assert Shaped(Both(REQUEST_HEAD, AUTHORITY), v.first.first) && Shaped(Both(PRESENTER, NAMES), v.first.second);
    }
    assert Shaped(Both(Both(PROOFS, CONFIG), Both(REQUEST_TAIL, Text(maxNote))), v.second) by {
      assert Shaped(Both(PROOFS, CONFIG), v.second.first) && Shaped(Both(REQUEST_TAIL, Text(maxNote)), v.second.second);
    }
  }

  function EncodeRequest(r: WireRequest): Bytes {
    RequestShaped(ENCODED_NOTE, r);
    Encode(REQUEST(ENCODED_NOTE), RequestValue(r))
  }

  lemma DecodedFits(f: Format, b: Bytes)
    requires DecodeAll(f, b).Some?
    ensures Fits(f, DecodeAll(f, b).value)
  {
    Canonical(f, b);
  }

  function DecodeRequest(maxNote: nat, b: Bytes): Option<WireRequest> {
    var v := DecodeAll(REQUEST(maxNote), b);
    if v.None? then None else
    DecodedFits(REQUEST(maxNote), b);
    RequestParts(maxNote, v.value);
    Some(RequestOf(maxNote, v.value))
  }

  /** A note within both bounds is encoded the same way under either. */
  lemma SameEncoding(m: nat, n: nat, r: WireRequest)
    requires |r.note| <= m && |r.note| <= n
    ensures Shaped(REQUEST(m), RequestValue(r)) && Shaped(REQUEST(n), RequestValue(r))
    ensures Encode(REQUEST(m), RequestValue(r)) == Encode(REQUEST(n), RequestValue(r))
  {
    RequestShaped(m, r);
    RequestShaped(n, r);
    var v := RequestValue(r);
    assert Encode(Text(m), v.second.second.second) == Encode(Text(n), v.second.second.second);
    assert Encode(Both(REQUEST_TAIL, Text(m)), v.second.second) == Encode(Both(REQUEST_TAIL, Text(n)), v.second.second);
  }

  /** Exactly which bytes decode to a request: its encoding, when the note is within the receiver's bound. */
  lemma RequestDecodes(maxNote: nat, b: Bytes, r: WireRequest)
    ensures Shaped(REQUEST(maxNote), RequestValue(r))
    ensures DecodeRequest(maxNote, b) == Some(r) <==>
              NoteFits(maxNote, r) && b == Encode(REQUEST(maxNote), RequestValue(r))
  {
    RequestShaped(maxNote, r);
    RequestWellFormed(maxNote);
    if DecodeRequest(maxNote, b) == Some(r) {
      var v := DecodeAll(REQUEST(maxNote), b).value;
      DecodedFits(REQUEST(maxNote), b);
      RequestParts(maxNote, v);
      RequestBack(maxNote, v);
      DecodesExactly(REQUEST(maxNote), b, v);
    }
    if NoteFits(maxNote, r) && b == Encode(REQUEST(maxNote), RequestValue(r)) {
      RequestInverse(maxNote, r);
      RequestParts(maxNote, RequestValue(r));
      DecodesExactly(REQUEST(maxNote), b, RequestValue(r));
    }
  }

  /** The bytes of a request: everything before the note, then the note. */
  lemma RequestBytes(maxNote: nat, r: WireRequest) returns (before: Bytes)
    ensures Shaped(REQUEST(maxNote), RequestValue(r)) && before == BeforeNote(r)
    ensures Encode(REQUEST(maxNote), RequestValue(r)) == before + Encode(Text(maxNote), Chars(r.note))
  {
    RequestShaped(maxNote, r);
    before := BeforeNote(r);
    var v := RequestValue(r);
    var who := Encode(Both(Both(REQUEST_HEAD, AUTHORITY), Both(PRESENTER, NAMES)), v.first);
    var what, tail, note := Encode(Both(PROOFS, CONFIG), v.second.first), Encode(REQUEST_TAIL,
        v.second.second.first), Encode(Text(maxNote), Chars(r.note));
    assert Encode(Both(REQUEST_TAIL, Text(maxNote)), v.second.second) == tail + note;
    assert Encode(Both(Both(PROOFS, CONFIG), Both(REQUEST_TAIL, Text(maxNote))), v.second) == what + (tail + note);
    Assoc(what, tail, note);
    Assoc(who, what + tail, note);
  }

  function BeforeNote(r: WireRequest): Bytes {
    RequestShaped(0, r);
    var v := RequestValue(r);
    Encode(Both(Both(REQUEST_HEAD, AUTHORITY), Both(PRESENTER, NAMES)), v.first)
      + (Encode(Both(PROOFS, CONFIG), v.second.first) + Encode(REQUEST_TAIL, v.second.second.first))
  }

  /** A note over the encoder's bound is dropped whole, leaving a message that ends before its note. */
  lemma OversizedNoteDropped(maxNote: nat, r: WireRequest)
    requires |r.note| > ENCODED_NOTE
    ensures DecodeRequest(maxNote, EncodeRequest(r)).None?
  {
    var short := r.(note := []);
    var dropped := RequestBytes(ENCODED_NOTE, r);
    var before := RequestBytes(maxNote, short);
    assert BeforeNote(short) == BeforeNote(r);
    var e := Encode(REQUEST(maxNote), RequestValue(short));
    assert EncodeRequest(r) == before + [] == before;
    assert e == before + (Le(0, 4) + []);
    RequestWellFormed(maxNote);
    RequestInverse(maxNote, short);
    RequestParts(maxNote, RequestValue(short));
    PrefixesRefused(REQUEST(maxNote), RequestValue(short), |before|);
    assert e[..|before|] == before;
  }

  /** Round trip of a request, exactly when it holds: the encoder drops a note over its own bound, and the decoder
      refuses one over the receiver's. */
  lemma RequestRoundTripIff(maxNote: nat, r: WireRequest)
    ensures DecodeRequest(maxNote, EncodeRequest(r)) == Some(r) <==> |r.note| <= ENCODED_NOTE && |r.note| <= maxNote
  {
    RequestDecodes(maxNote, EncodeRequest(r), r);
    if |r.note| > ENCODED_NOTE {
      OversizedNoteDropped(maxNote, r);
    } else if |r.note| <= maxNote {
      SameEncoding(ENCODED_NOTE, maxNote, r);
    }
  }

  /** Whatever is accepted as a request re-encodes to the same bytes, as long as its note is within the encoder's bound.
      */
  lemma RequestCanonical(maxNote: nat, b: Bytes)
    requires DecodeRequest(maxNote, b).Some?
    ensures var r := DecodeRequest(maxNote, b).value; |r.note| <= ENCODED_NOTE ==> EncodeRequest(r) == b
    ensures |DecodeRequest(maxNote, b).value.note| <= maxNote
  {
    var r := DecodeRequest(maxNote, b).value;
    RequestDecodes(maxNote, b, r);
    if |r.note| <= ENCODED_NOTE { SameEncoding(ENCODED_NOTE, maxNote, r); }
  }

  lemma RequestPrefixesAndExtensions(maxNote: nat, r: WireRequest, cut: nat, extra: Bytes)
    requires |r.note| <= ENCODED_NOTE && |r.note| <= maxNote
    ensures cut < |EncodeRequest(r)| ==> DecodeRequest(maxNote, EncodeRequest(r)[..cut]).None?
    ensures extra != [] ==> DecodeRequest(maxNote, EncodeRequest(r) + extra).None?
  {
    SameEncoding(ENCODED_NOTE, maxNote, r);
    RequestWellFormed(maxNote);
    RequestInverse(maxNote, r);
    RequestParts(maxNote, RequestValue(r));
    if cut < |EncodeRequest(r)| { PrefixesRefused(REQUEST(maxNote), RequestValue(r), cut); }
    if extra != [] { ExtensionsRefused(REQUEST(maxNote), RequestValue(r), extra); }
  }

  // ---------------------------------------------------------------- outcomes

  lemma OutcomeShaped(o: WireOutcome)
    ensures Shaped(OUTCOME, OutcomeValue(o))
  {
    var v := OutcomeValue(o);
    assert Shaped(OUTCOME_HEAD, v.first.first) && Shaped(AUTHORITY, v.first.second);
    assert Shaped(VIEW, v.second.first) && Shaped(OUTCOME_TAIL, v.second.second);
    assert Shaped(Both(OUTCOME_HEAD, AUTHORITY), v.first) && Shaped(Both(VIEW, OUTCOME_TAIL), v.second);
  }

  function EncodeOutcome(o: WireOutcome): Bytes {
    OutcomeShaped(o);
    Encode(OUTCOME, OutcomeValue(o))
  }

  function DecodeOutcome(b: Bytes): Option<WireOutcome> {
    var v := DecodeAll(OUTCOME, b);
    if v.None? then None else
    DecodedFits(OUTCOME, b);
    OutcomeParts(v.value);
    Some(OutcomeOf(v.value))
  }

  /** Exactly the encodings of in-bounds outcomes decode, each to its outcome. */
  lemma OutcomeDecodes(b: Bytes, o: WireOutcome)
    ensures DecodeOutcome(b) == Some(o) <==> OutcomeFits(o) && b == EncodeOutcome(o)
  {
    OutcomeShaped(o);
    OutcomeWellFormed();
    if DecodeOutcome(b) == Some(o) {
      var v := DecodeAll(OUTCOME, b).value;
      DecodedFits(OUTCOME, b);
      OutcomeParts(v);
      OutcomeBack(v);
      DecodesExactly(OUTCOME, b, v);
    }
    if OutcomeFits(o) && b == EncodeOutcome(o) {
      OutcomeInverse(o);
      OutcomeParts(OutcomeValue(o));
      DecodesExactly(OUTCOME, b, OutcomeValue(o));
    }
  }

  lemma OutcomePrefixesAndExtensions(o: WireOutcome, cut: nat, extra: Bytes)
    requires OutcomeFits(o)
    ensures cut < |EncodeOutcome(o)| ==> DecodeOutcome(EncodeOutcome(o)[..cut]).None?
    ensures extra != [] ==> DecodeOutcome(EncodeOutcome(o) + extra).None?
  {
    OutcomeWellFormed();
    OutcomeInverse(o);
    OutcomeParts(OutcomeValue(o));
    if cut < |EncodeOutcome(o)| { PrefixesRefused(OUTCOME, OutcomeValue(o), cut); }
    if extra != [] { ExtensionsRefused(OUTCOME, OutcomeValue(o), extra); }
  }
}
