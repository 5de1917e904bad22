/**
 What the event journal takes, writes and refuses, spelled out: which names are secret, what is kept of an
 account update, what makes a line acceptable, what a delivery records, and when a start refuses.
 */
module EventAnswers {
  import opened RateTables
  import opened EventSanitizer
  import opened EventJournal

  // ---------------------------------------------------------------- secrets

  predicate Plain(c: char) {
    'a' <= c <= 'z' || '0' <= c <= '9'
  }

  /** Only plain characters count in a name, in their order. */
  lemma {:induction false} OnlyPlainCounts(a: string, c: char)
    ensures Alphanumeric(a + [c]) == if Plain(c) then Alphanumeric(a) + [c] else Alphanumeric(a)
    ensures Alphanumeric("") == ""
  {
    if a != "" {
      assert (a + [c])[1..] == a[1..] + [c];
      OnlyPlainCounts(a[1..], c);
    } else {
      assert a + [c] == [c] && [c][1..] == "";
      assert Alphanumeric("") == "";
    }
  }

  /** The eight secret names. */
  lemma SecretIff(lower: string -> string, name: string)
    ensures var n := Alphanumeric(lower(name));
      IsSecret(lower, name) <==>
        || n == "listenkey" || n == "apikey" || n == "secret" || n == "secretkey"
        || n == "signature" || n == "token" || n == "password" || n == "privatekey"
  {
  }

  /** A field survives sanitizing, with its value sanitized, exactly if its name is not secret. */
  lemma {:induction false} FieldSurvives(lower: string -> string, fields: Fields, name: string)
    ensures Get(SanitizeFields(lower, fields), name) ==
      if IsSecret(lower, name) || Get(fields, name).None? then None else Some(Sanitize(lower, Get(fields, name).value))
  {
    if fields.Field? {
      FieldSurvives(lower, fields.rest, name);
    }
  }

  lemma {:induction false} WithoutIs(fields: Fields, name: string, other: string)
    ensures Get(Without(fields, name), other) == if other == name then None else Get(fields, other)
  {
    if fields.Field? {
      WithoutIs(fields.rest, name, other);
    }
  }

  /** Every other field of an event survives as it would in any object. */
  lemma EventFieldSurvives(lower: string -> string, fields: Fields, name: string)
    requires name != "a" || Get(fields, "e") != Some(Str("ACCOUNT_UPDATE"))
    ensures Get(SanitizeEvent(lower, fields), name) ==
      if IsSecret(lower, name) || Get(fields, name).None? then None else Some(Sanitize(lower, Get(fields, name).value))
  {
    FieldSurvives(lower, fields, name);
    if Get(fields, "e") == Some(Str("ACCOUNT_UPDATE")) {
      WithoutIs(fields, "a", name);
      forall kept
        ensures Get(SanitizeFields(lower, Field("a", Obj(kept), Without(fields, "a"))), name) ==
          if IsSecret(lower, name) || Get(Without(fields, "a"), name).None? then None
          else Some(Sanitize(lower, Get(Without(fields, "a"), name).value))
      {
        FieldSurvives(lower, Field("a", Obj(kept), Without(fields, "a")), name);
      }
    }
  }

  /** What may be kept of an account: its reason and its positions. */
  ghost predicate AccountCut(lower: string -> string, account: Option<Json>, kept: Fields) {
    if account.None? || !account.value.Obj? then kept == NoFields
    else
      && (forall name :: Get(kept, name).Some? ==> name == "m" || name == "P")
      && (!IsSecret(lower, "m") ==>
            var m := Get(account.value.fields, "m");
            Get(kept, "m") == Some(if m.None? then Null else Sanitize(lower, m.value)))
      && (!IsSecret(lower, "P") ==>
            var p := Get(account.value.fields, "P");
            Get(kept, "P") == if p.None? || !p.value.List? then None else Some(Sanitize(lower, p.value)))
  }

  lemma KeptIsCut(lower: string -> string, account: Json, m: Json, rest: Fields)
    requires account.Obj?
    requires m == if Get(account.fields, "m").None? then Null else Get(account.fields, "m").value
    requires var p := Get(account.fields, "P");
      rest == if p.Some? && p.value.List? then Field("P", Sanitize(lower, p.value), NoFields) else NoFields
    ensures AccountCut(lower, Some(account), SanitizeFields(lower, Field("m", m, rest)))
  {
    var kept := Field("m", m, rest);
    assert "m"[0] == 'm' && "P"[0] == 'P';
    forall name
      ensures Get(SanitizeFields(lower, kept), name) ==
        if IsSecret(lower, name) || Get(kept, name).None? then None else Some(Sanitize(lower, Get(kept, name).value))
      ensures Get(kept, name).Some? ==> name == "m" || name == "P"
    {
      FieldSurvives(lower, kept, name);
      assert Get(NoFields, name) == None;
      assert Get(rest, name).Some? ==> name == "P";
    }
    var p := Get(account.fields, "P");
    if p.Some? {
      SanitizeCleans(lower, p.value);
    }
  }

  lemma FirstField(lower: string -> string, value: Json, rest: Fields)
    requires !IsSecret(lower, "a")
    ensures Get(SanitizeFields(lower, Field("a", value, rest)), "a") == Some(Sanitize(lower, value))
  {
  }

  /** Balances and everything else of an account update are dropped before it is recorded. */
  lemma AccountIsCut(lower: string -> string, fields: Fields)
    requires Get(fields, "e") == Some(Str("ACCOUNT_UPDATE")) && !IsSecret(lower, "a")
    ensures var a := Get(SanitizeEvent(lower, fields), "a");
      a.Some? && a.value.Obj? && AccountCut(lower, Get(fields, "a"), a.value.fields)
  {
    var account, others := Get(fields, "a"), Without(fields, "a");
    if account.Some? && account.value.Obj? {
      var reason, positions := Get(account.value.fields, "m"), Get(account.value.fields, "P");
      var m := if reason.None? then Null else reason.value;
      var rest := if positions.Some? && positions.value.List?
                  then Field("P", Sanitize(lower, positions.value), NoFields) else NoFields;
      FirstField(lower, Obj(Field("m", m, rest)), others);
      KeptIsCut(lower, account.value, m, rest);
    } else {
      FirstField(lower, Obj(NoFields), others);
    }
  }

  // ---------------------------------------------------------------- lines

  ghost predicate KnownType(v: Json) {
    v == Str("ORDER_TRADE_UPDATE") || v == Str("ACCOUNT_UPDATE") || v == Str("ALGO_UPDATE")
      || v == Str("listenKeyExpired")
  }

  ghost predicate WholeNumber(v: Json) {
    v.Num? || v.Bool?
  }

  /** The content says what a record has to say, and its identifier is the digest of its payload. */
  ghost predicate GoodContent(h: Hashing, c: Content) {
    && c.schema == Str("1.0.0") && c.recordType == Str("TESTNET_USER_DATA_EVENT") && c.environment == Str("testnet")
    && (c.productionRequests == Num(0) || c.productionRequests == Bool(false) || c.productionRequests == Float(0.0))
    && KnownType(c.eventType) && WholeNumber(c.eventTime) && c.received.Str? && c.payload.Obj?
    && c.stableId == Str(h.payload(c.payload))
  }

  lemma MeaningfulIff(h: Hashing, c: Content)
    ensures Meaningful(h, c) <==> GoodContent(h, c)
  {
  }

  ghost predicate Linked(h: Hashing, e: Evidence, line: Line) {
    line.Row? && line.previous == Str(e.final) && line.digest == Str(h.record(line.body, line.previous))
  }

  /** Which fault a line is refused for. */
  lemma LineAnswers(h: Hashing, e: Evidence, line: Line)
    ensures var r := CheckLine(h, e, line);
      && (r == Failure(BadJson) <==> line.NotJson?)
      && (r == Failure(RecordNotClosed) <==> line.NotClosed?)
      && (r == Failure(HashMismatch) <==> line.Row? && !Linked(h, e, line))
      && (r == Failure(ContentNotClosed) <==> Linked(h, e, line) && line.body.Unclosed?)
      && (r == Failure(SemanticsInvalid) <==>
            Linked(h, e, line) && line.body.Closed? && !GoodContent(h, line.body.content))
      && (r == Failure(DuplicateEvent) <==>
            && Linked(h, e, line) && line.body.Closed? && GoodContent(h, line.body.content)
            && line.body.content.stableId.s in e.seen)
  {
    if line.Row? && line.body.Closed? {
      MeaningfulIff(h, line.body.content);
    }
  }

  /** Every line of an accepted file says what a record has to say. */
  lemma AcceptedLinesAreGood(h: Hashing, lines: seq<Line>, k: nat)
    requires Verify(h, lines).Success? && k < |lines|
    ensures var line := lines[k];
      && line.Row? && line.body.Closed? && GoodContent(h, line.body.content)
      && line.digest == Str(h.record(line.body, line.previous))
      && line.previous == (if k == 0 then Str(GENESIS) else if lines[k - 1].Row? then lines[k - 1].digest else Null)
  {
    AcceptsIffChained(h, lines);
    assert LinkedAt(h, lines, k);
    MeaningfulIff(h, lines[k].body.content);
  }

  // ---------------------------------------------------------------- deliveries

  /** The document names a known event type and an integer time. */
  ghost predicate Takes(doc: Fields) {
    && Get(doc, "e").Some? && KnownType(Get(doc, "e").value)
    && Get(doc, "E").Some? && WholeNumber(Get(doc, "E").value)
  }

  ghost predicate CannotBeLookedUp(doc: Fields) {
    Get(doc, "e").Some? && (Get(doc, "e").value.List? || Get(doc, "e").value.Obj?)
  }

  lemma HeaderIff(doc: Fields)
    ensures EventJournal.Header(doc).Some? <==> Takes(doc)
    ensures Takes(doc) ==> EventJournal.Header(doc) == Some((Get(doc, "e").value, Get(doc, "E").value))
    ensures Takes(doc) ==> !CannotBeLookedUp(doc)
  {
  }

  /** What becomes of a document, and which counter it moves. */
  lemma DeliverAnswers(h: Hashing, lower: string -> string, w: World, doc: Fields, received: string)
    ensures var (t, recorded) := Deliver(h, lower, w, doc, received);
      var known := h.payload(Obj(SanitizeEvent(lower, doc))) in w.journal.seen;
      var was, now := w.journal.state, t.journal.state;
      && (recorded == Raised <==> CannotBeLookedUp(doc))
      && (recorded == Accepted <==> Takes(doc) && !known)
      && (recorded == Raised ==> t == w)
      && (recorded == Ignored ==>
            && t.disk == w.disk.(state := Some(Document(now))) && t.journal == w.journal.(state := now)
            && now == (if Takes(doc) then was.(duplicates := was.duplicates + 1) else was.(invalid := was.invalid + 1)))
  {
    HeaderIff(doc);
  }

  /** The record an accepted document is written as. */
  lemma AcceptedRecordIs(h: Hashing, lower: string -> string, w: World, doc: Fields, received: string)
    requires Deliver(h, lower, w, doc, received).1.Accepted?
    ensures var t := Deliver(h, lower, w, doc, received).0;
      var payload := Obj(SanitizeEvent(lower, doc));
      var id, was, now := h.payload(payload), w.journal.state, t.journal.state;
      var content := Content(Str("1.0.0"), Str("TESTNET_USER_DATA_EVENT"), Get(doc, "e").value, Str(id),
        Get(doc, "E").value, Str(received), payload, Str("testnet"), Num(0));
      var digest := h.record(Closed(content), Str(w.journal.last));
      && Takes(doc)
      && t.disk.evidence == Some((if w.disk.evidence.None? then [] else w.disk.evidence.value)
                                 + [Row(Closed(content), Str(w.journal.last), Str(digest))])
      && t.journal.seen == w.journal.seen + {id} && t.journal.last == digest && t.disk.state == Some(Document(now))
      && now.last == digest && now.accepted == was.accepted + 1 && now.duplicates == was.duplicates
        && now.invalid == was.invalid
      && now.counts == was.counts[Get(doc, "e").value.s :=
           (if Get(doc, "e").value.s in was.counts then was.counts[Get(doc, "e").value.s] else 0) + 1]
  {
    HeaderIff(doc);
  }

  // ---------------------------------------------------------------- starts

  ghost predicate HexDigit(c: char) {
    '0' <= c <= '9' || 'a' <= c <= 'f'
  }

  ghost predicate StateUsable(state: StateFile) {
    state.Document? && |state.counters.last| == 64 && forall k :: 0 <= k < 64 ==> HexDigit(state.counters.last[k])
  }

  /** The state file counts what the evidence holds. */
  ghost predicate Agrees(c: Counters, e: Evidence) {
    c.accepted == e.count && c.counts == e.counts && c.last == e.final
  }

  /** When a start refuses, and what it starts from otherwise. */
  lemma StartAnswers(h: Hashing, disk: Disk)
    ensures var r := Load(h, disk);
      var usable := disk.state.None? || StateUsable(disk.state.value);
      && (r == Failure(StateInvalid) <==> !usable)
      && (r.Failure? && r.error.EvidenceInvalid?
        <==> usable && disk.evidence.Some? && Verify(h, disk.evidence.value).Failure?)
      && (r == Failure(StateMismatch) <==>
            && usable && disk.state.Some? && disk.evidence.Some? && Verify(h, disk.evidence.value).Success?
            && !Agrees(disk.state.value.counters, Verify(h, disk.evidence.value).value))
      && (r.Success? && disk.evidence.Some? ==>
            var e := Verify(h, disk.evidence.value).value;
            && r.value.seen == e.seen && r.value.last == e.final && Agrees(r.value.state, e)
            && (disk.state.Some? ==> r.value.state == disk.state.value.counters)
            && (disk.state.None? ==> r.value.state.duplicates == 0 && r.value.state.invalid == 0))
      && (r.Success? && disk.evidence.None? ==>
            && r.value.seen == {} && r.value.last == GENESIS
            && r.value.state == (if disk.state.Some? then disk.state.value.counters
              else Counters(0, 0, 0, map[], GENESIS)))
  {
    if disk.state.Some? && disk.state.value.Document? {
      DigestIff(disk.state.value.counters.last);
    }
  }

  lemma DigestIff(s: string)
    ensures IsDigest(s) <==> |s| == 64 && forall k :: 0 <= k < 64 ==> HexDigit(s[k])
  {
  }
}
