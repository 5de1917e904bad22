/**
 The user-data event journal: a hash-chained, deduplicated evidence file beside a state file, with restart.
 A line reads back as the value written; digests come from hash functions given as parameters.
 */
module EventJournal {
  import opened RateTables
  import opened EventSanitizer

  // ---------------------------------------------------------------- the evidence file

  datatype Content = Content(
    schema: Json, recordType: Json, eventType: Json, stableId: Json, eventTime: Json,
    received: Json, payload: Json, environment: Json, productionRequests: Json)

  /** A record's content: with exactly the expected keys, or anything else. */
  datatype Body = Closed(content: Content) | Unclosed(doc: Json)

  datatype Line = NotJson | NotClosed(doc: Json) | Row(body: Body, previous: Json, digest: Json)

  /** Digests of payloads and of linked records. */
  datatype Hashing = Hashing(payload: Json -> string, record: (Body, Json) -> string)

  function Zeros(n: nat): (s: string)
    ensures |s| == n && forall k :: 0 <= k < n ==> s[k] == '0'
  {
    if n == 0 then "" else "0" + Zeros(n - 1)
  }

  const GENESIS := Zeros(64)

  const ALLOWED: set<string> := {"ORDER_TRADE_UPDATE", "ACCOUNT_UPDATE", "ALGO_UPDATE", "listenKeyExpired"}

  predicate IsAllowed(v: Json) {
    v.Str? && v.s in ALLOWED
  }

  /** Booleans pass the integer test. */
  predicate IsInteger(v: Json) {
    v.Num? || v.Bool?
  }

  predicate EqualsZero(v: Json) {
    v == Num(0) || v == Bool(false) || v == Float(0.0)
  }

  predicate Meaningful(h: Hashing, c: Content) {
    && c.schema == Str("1.0.0") && c.recordType == Str("TESTNET_USER_DATA_EVENT")
    && IsAllowed(c.eventType) && IsInteger(c.eventTime) && c.received.Str? && c.payload.Obj?
    && c.environment == Str("testnet") && EqualsZero(c.productionRequests)
    && c.stableId == Str(h.payload(c.payload))
  }

  // ---------------------------------------------------------------- the verifier

  datatype Fault = BadJson | RecordNotClosed | HashMismatch | ContentNotClosed | SemanticsInvalid | DuplicateEvent

  /** What the verifier has gathered. */
  datatype Evidence = Evidence(count: nat, counts: map<string, nat>, final: string, seen: set<string>)

  const NOTHING := Evidence(0, map[], GENESIS, {})

  function Bump(counts: map<string, nat>, t: string): map<string, nat> {
    counts[t := (if t in counts then counts[t] else 0) + 1]
  }

  function CheckLine(h: Hashing, e: Evidence, line: Line): Result<Evidence, Fault> {
    match line
    case NotJson => Failure(BadJson)
    case NotClosed(_) => Failure(RecordNotClosed)
    case Row(body, previous, digest) =>
      if previous != Str(e.final) || digest != Str(h.record(body, previous)) then Failure(HashMismatch)
      else if body.Unclosed? then Failure(ContentNotClosed)
      else if !Meaningful(h, body.content) then Failure(SemanticsInvalid)
      else if body.content.stableId.s in e.seen then Failure(DuplicateEvent)
      else Success(Evidence(e.count + 1, Bump(e.counts, body.content.eventType.s), h.record(body, previous),
                            e.seen + {body.content.stableId.s}))
  }

  function Verify(h: Hashing, lines: seq<Line>): Result<Evidence, Fault> {
    if lines == [] then Success(NOTHING)
    else
      var before := Verify(h, lines[..|lines| - 1]);
      if before.Failure? then before else CheckLine(h, before.value, lines[|lines| - 1])
  }

  lemma {:induction false} FaultsPersist(h: Hashing, lines: seq<Line>, k: nat)
    requires k <= |lines| && Verify(h, lines[..k]).Failure?
    ensures Verify(h, lines) == Verify(h, lines[..k])
  {
    if k == |lines| {
      assert lines[..k] == lines;
    } else {
      assert lines[..|lines| - 1][..k] == lines[..k];
      FaultsPersist(h, lines[..|lines| - 1], k);
    }
  }

  /** The next line decides whether verification goes on. */
  lemma NextLine(h: Hashing, lines: seq<Line>, i: nat, e: Evidence)
    requires i < |lines| && Verify(h, lines[..i]) == Success(e)
    ensures Verify(h, lines[..i + 1]) == CheckLine(h, e, lines[i])
    ensures CheckLine(h, e, lines[i]).Failure? ==> Verify(h, lines) == CheckLine(h, e, lines[i])
  {
    assert lines[..i + 1][..i] == lines[..i];
    if CheckLine(h, e, lines[i]).Failure? {
      FaultsPersist(h, lines, i + 1);
    }
  }

  /** The checks on one line, in order. */
  method VerifyLine(h: Hashing, e: Evidence, line: Line) returns (r: Result<Evidence, Fault>)
    ensures r == CheckLine(h, e, line)
  {
    if line.NotJson? {
      return Failure(BadJson);
    }
    if line.NotClosed? {
      return Failure(RecordNotClosed);
    }
    var expected := h.record(line.body, line.previous);
    if line.previous != Str(e.final) || line.digest != Str(expected) {
      return Failure(HashMismatch);
    }
    if line.body.Unclosed? {
      return Failure(ContentNotClosed);
    }
    var content := line.body.content;
    if !Meaningful(h, content) {
      return Failure(SemanticsInvalid);
    }
    if content.stableId.s in e.seen {
      return Failure(DuplicateEvent);
    }
    return Success(Evidence(e.count + 1, Bump(e.counts, content.eventType.s), expected, e.seen + {content.stableId.s}));
  }

  method VerifyUserDataEvidence(h: Hashing, lines: seq<Line>) returns (r: Result<Evidence, Fault>)
    ensures r == Verify(h, lines)
  {
    var gathered := NOTHING;
    for i := 0 to |lines|
      invariant Verify(h, lines[..i]) == Success(gathered)
    {
      NextLine(h, lines, i, gathered);
      var checked := VerifyLine(h, gathered, lines[i]);
      if checked.Failure? {
        return checked;
      }
      gathered := checked.value;
    }
    assert lines[..|lines|] == lines;
    return Success(gathered);
  }

  // ---------------------------------------------------------------- what acceptance means

  ghost predicate Sound(h: Hashing, line: Line) {
    && line.Row? && line.digest == Str(h.record(line.body, line.previous))
    && line.body.Closed? && Meaningful(h, line.body.content)
  }

  /** The digest a record must link to. */
  function LinkBefore(lines: seq<Line>, k: nat): Json
    requires k <= |lines|
  {
    if k == 0 then Str(GENESIS) else if lines[k - 1].Row? then lines[k - 1].digest else Null
  }

  function EventId(line: Line): Json {
    if line.Row? && line.body.Closed? then line.body.content.stableId else Null
  }

  function EventTypeOf(line: Line): Json {
    if line.Row? && line.body.Closed? then line.body.content.eventType else Null
  }

  ghost predicate LinkedAt(h: Hashing, lines: seq<Line>, k: nat)
    requires k < |lines|
  {
    Sound(h, lines[k]) && lines[k].previous == LinkBefore(lines, k)
  }

  /** Every record sound, linked to the one before, and none repeated. */
  ghost predicate Chained(h: Hashing, lines: seq<Line>) {
    && (forall k :: 0 <= k < |lines| ==> LinkedAt(h, lines, k))
    && (forall i, j :: 0 <= i < j < |lines| ==> EventId(lines[i]) != EventId(lines[j]))
  }

  function CountOf(lines: seq<Line>, t: string): nat {
    if lines == [] then 0
    else CountOf(lines[..|lines| - 1], t) + if EventTypeOf(lines[|lines| - 1]) == Str(t) then 1 else 0
  }

  /** The gathered figures describe the lines. */
  ghost predicate Describes(e: Evidence, lines: seq<Line>) {
    && e.count == |lines|
    && Str(e.final) == LinkBefore(lines, |lines|)
    && (forall t :: CountOf(lines, t) == if t in e.counts then e.counts[t] else 0)
    && (forall t :: t in e.counts ==> e.counts[t] > 0)
    && (forall id :: id in e.seen <==> exists k :: 0 <= k < |lines| && EventId(lines[k]) == Str(id))
  }

  ghost predicate Extends(h: Hashing, init: seq<Line>, line: Line) {
    && Sound(h, line) && line.previous == LinkBefore(init, |init|)
    && forall k :: 0 <= k < |init| ==> EventId(init[k]) != EventId(line)
  }

  lemma ChainedGrows(h: Hashing, init: seq<Line>, line: Line)
    requires Chained(h, init) && Extends(h, init, line)
    ensures Chained(h, init + [line])
  {
    var lines := init + [line];
    forall k | 0 <= k < |lines| ensures LinkedAt(h, lines, k) {
      assert LinkBefore(lines, k) == LinkBefore(init, k);
      assert k < |init| ==> LinkedAt(h, init, k);
    }
  }

  lemma ChainedShrinks(h: Hashing, init: seq<Line>, line: Line)
    requires Chained(h, init + [line])
    ensures Chained(h, init) && Extends(h, init, line)
  {
    var lines := init + [line];
    assert LinkedAt(h, lines, |init|);
    forall k | 0 <= k < |init| ensures LinkedAt(h, init, k) && EventId(init[k]) != EventId(line) {
      assert LinkedAt(h, lines, k) && lines[k] == init[k] && lines[|init|] == line;
    }
    forall i, j | 0 <= i < j < |init| ensures EventId(init[i]) != EventId(init[j]) {
      assert lines[i] == init[i] && lines[j] == init[j];
    }
  }

  lemma CheckExtends(h: Hashing, init: seq<Line>, e: Evidence, line: Line)
    requires Describes(e, init)
    ensures CheckLine(h, e, line).Success? <==> Extends(h, init, line)
  {
    if Sound(h, line) {
      var id := line.body.content.stableId.s;
      assert id in e.seen <==> exists k :: 0 <= k < |init| && EventId(init[k]) == Str(id);
    }
  }

  lemma CheckDecides(h: Hashing, init: seq<Line>, e: Evidence, line: Line)
    requires Chained(h, init) && Describes(e, init)
    ensures CheckLine(h, e, line).Success? <==> Chained(h, init + [line])
  {
    CheckExtends(h, init, e, line);
    if Extends(h, init, line) {
      ChainedGrows(h, init, line);
    } else if Chained(h, init + [line]) {
      ChainedShrinks(h, init, line);
    }
  }

  lemma CheckDescribes(h: Hashing, init: seq<Line>, e: Evidence, line: Line)
    requires Describes(e, init) && CheckLine(h, e, line).Success?
    ensures Describes(CheckLine(h, e, line).value, init + [line])
  {
    var lines, f := init + [line], CheckLine(h, e, line).value;
    assert lines[..|lines| - 1] == init && lines[|init|] == line;
    forall id ensures id in f.seen <==> exists k :: 0 <= k < |lines| && EventId(lines[k]) == Str(id) {
      if id in e.seen {
        var k :| 0 <= k < |init| && EventId(init[k]) == Str(id);
        assert EventId(lines[k]) == Str(id);
      }
      if k :| 0 <= k < |lines| && EventId(lines[k]) == Str(id) {
        assert k < |init| ==> EventId(init[k]) == Str(id);
      }
    }
  }

  /** The verifier accepts exactly the chained files, and its figures describe them. */
  lemma {:induction false} AcceptsIffChained(h: Hashing, lines: seq<Line>)
    ensures Verify(h, lines).Success? <==> Chained(h, lines)
    ensures Verify(h, lines).Success? ==> Describes(Verify(h, lines).value, lines)
  {
    if lines != [] {
      var init, line := lines[..|lines| - 1], lines[|lines| - 1];
      assert lines == init + [line];
      AcceptsIffChained(h, init);
      if Verify(h, init).Success? {
        CheckDecides(h, init, Verify(h, init).value, line);
        if Verify(h, lines).Success? {
          CheckDescribes(h, init, Verify(h, init).value, line);
        }
      } else if Chained(h, lines) {
        ChainedShrinks(h, init, line);
      }
    }
  }

  lemma CheckedLink(h: Hashing, e: Evidence, line: Line)
    requires CheckLine(h, e, line).Success?
    ensures line.Row? && line.previous == Str(e.final) && line.digest == Str(CheckLine(h, e, line).value.final)
    ensures CheckLine(h, e, line).value.final == h.record(line.body, line.previous)
    ensures e.seen <= CheckLine(h, e, line).value.seen && CheckLine(h, e, line).value.count == e.count + 1
  {
  }

  lemma LastLink(h: Hashing, lines: seq<Line>)
    requires lines != [] && Verify(h, lines).Success?
    ensures var init, last := Verify(h, lines[..|lines| - 1]), lines[|lines| - 1];
      && init.Success? && last.Row?
      && last.previous == Str(init.value.final) && last.digest == Str(Verify(h, lines).value.final)
      && Verify(h, lines).value.final == h.record(last.body, last.previous)
      && init.value.seen <= Verify(h, lines).value.seen && Verify(h, lines).value.count == init.value.count + 1
  {
    CheckedLink(h, Verify(h, lines[..|lines| - 1]).value, lines[|lines| - 1]);
  }

  /** A line carrying the digest of its own contents. */
  ghost predicate Signed(h: Hashing, line: Line) {
    line.Row? && line.previous.Str? && line.digest == Str(h.record(line.body, line.previous))
  }

  /** Signed lines, each linking to the one before, from the genesis value up to `final`. */
  ghost predicate LinksTo(h: Hashing, lines: seq<Line>, final: string) {
    if lines == [] then final == GENESIS
    else
      var last := lines[|lines| - 1];
      Signed(h, last) && last.digest == Str(final) && LinksTo(h, lines[..|lines| - 1], last.previous.s)
  }

  lemma {:induction false} AcceptedLinks(h: Hashing, lines: seq<Line>)
    requires Verify(h, lines).Success?
    ensures LinksTo(h, lines, Verify(h, lines).value.final)
  {
    if lines != [] {
      LastLink(h, lines);
      AcceptedLinks(h, lines[..|lines| - 1]);
    }
  }

  /** Two different records with one digest. */
  ghost predicate Collide(h: Hashing, x: Line, y: Line) {
    Signed(h, x) && Signed(h, y) && x.digest == y.digest && x != y
  }

  /** A record whose digest is the genesis value. */
  ghost predicate HitsGenesis(h: Hashing, x: Line) {
    Signed(h, x) && x.digest == Str(GENESIS)
  }

  /** The two files exhibit a weakness of the hash: a collision between them, or a record with the genesis digest. */
  ghost predicate HashBroken(h: Hashing, a: seq<Line>, b: seq<Line>) {
    || (exists i, j :: 0 <= i < |a| && 0 <= j < |b| && Collide(h, a[i], b[j]))
    || (exists i :: 0 <= i < |a| && HitsGenesis(h, a[i]))
    || (exists j :: 0 <= j < |b| && HitsGenesis(h, b[j]))
  }

  lemma BrokenInPrefix(h: Hashing, a: seq<Line>, b: seq<Line>, m: nat, n: nat)
    requires m <= |a| && n <= |b| && HashBroken(h, a[..m], b[..n])
    ensures HashBroken(h, a, b)
  {
    if i, j :| 0 <= i < m && 0 <= j < n && Collide(h, a[..m][i], b[..n][j]) {
      assert Collide(h, a[i], b[j]);
    } else if i :| 0 <= i < m && HitsGenesis(h, a[..m][i]) {
      assert HitsGenesis(h, a[i]);
    } else {
      var j :| 0 <= j < n && HitsGenesis(h, b[..n][j]);
      assert HitsGenesis(h, b[j]);
    }
  }

  /** Files that link to the same digest are equal, line by line from the end, or they break the hash. */
  lemma {:induction false} LinksDetermineFile(h: Hashing, a: seq<Line>, b: seq<Line>, final: string)
    requires LinksTo(h, a, final) && LinksTo(h, b, final)
    ensures a == b || HashBroken(h, a, b)
  {
    if a == [] && b != [] {
      assert HitsGenesis(h, b[|b| - 1]);
    } else if a != [] && b == [] {
      assert HitsGenesis(h, a[|a| - 1]);
    } else if a != [] && b != [] {
      var m, n := |a| - 1, |b| - 1;
      if a[m] != b[n] {
        assert Collide(h, a[m], b[n]);
      } else {
        LinksDetermineFile(h, a[..m], b[..n], a[m].previous.s);
        if a[..m] == b[..n] {
          assert a == a[..m] + [a[m]] && b == b[..n] + [b[n]];
        } else {
          BrokenInPrefix(h, a, b, m, n);
        }
      }
    }
  }

  /** Whatever the hash: two accepted files with the same final digest are equal, or they exhibit a weakness of it. */
  lemma FinalDigestDeterminesFile(h: Hashing, a: seq<Line>, b: seq<Line>)
    requires Verify(h, a).Success? && Verify(h, b).Success?
    requires Verify(h, a).value.final == Verify(h, b).value.final
    ensures a == b || HashBroken(h, a, b)
  {
    AcceptedLinks(h, a);
    AcceptedLinks(h, b);
    LinksDetermineFile(h, a, b, Verify(h, a).value.final);
  }

  // ---------------------------------------------------------------- the journal

  /** The modelled part of the state document. */
  datatype Counters = Counters(accepted: nat, duplicates: nat, invalid: nat, counts: map<string, nat>, last: string)

  const STARTING := Counters(0, 0, 0, map[], GENESIS)

  /** A state file: one that fails its checks, or a document with its counters. */
  datatype StateFile = Unusable | Document(counters: Counters)

  datatype Disk = Disk(evidence: Option<seq<Line>>, state: Option<StateFile>)

  datatype Journal = Journal(seen: set<string>, last: string, state: Counters)

  datatype World = World(journal: Journal, disk: Disk)

  datatype LoadError = StateInvalid | EvidenceInvalid(fault: Fault) | StateMismatch

  /** Sixty-four lower-case hexadecimal digits. */
  predicate IsDigest(s: string) {
    |s| == 64 && forall k :: 0 <= k < |s| ==> '0' <= s[k] <= '9' || 'a' <= s[k] <= 'f'
  }

  function LinesOf(disk: Disk): seq<Line> {
    if disk.evidence.None? then [] else disk.evidence.value
  }

  /** Start from what is on disk, or refuse. */
  function Load(h: Hashing, disk: Disk): Result<Journal, LoadError> {
    if disk.state.Some? && (disk.state.value.Unusable? || !IsDigest(disk.state.value.counters.last)) then
      Failure(StateInvalid)
    else
      var state := if disk.state.Some? then disk.state.value.counters else STARTING;
      if disk.evidence.None? then Success(Journal({}, GENESIS, state))
      else
        var checked := Verify(h, disk.evidence.value);
        if checked.Failure? then Failure(EvidenceInvalid(checked.error))
        else
          var e := checked.value;
          if disk.state.None? then
            Success(Journal(e.seen, e.final, state.(accepted := e.count, counts := e.counts, last := e.final)))
          else if state.accepted != e.count || state.counts != e.counts || state.last != e.final then
            Failure(StateMismatch)
          else Success(Journal(e.seen, e.final, state))
  }

  /** Loading ends by writing the state back. */
  function Started(h: Hashing, disk: Disk): Result<World, LoadError> {
    var j := Load(h, disk);
    if j.Failure? then Failure(j.error) else Success(World(j.value, disk.(state := Some(Document(j.value.state)))))
  }

  datatype Recorded = Accepted | Ignored | Raised

  function NewContent(h: Hashing, eventType: Json, eventTime: Json, payload: Json, received: string): Content {
    Content(Str("1.0.0"), Str("TESTNET_USER_DATA_EVENT"), eventType, Str(h.payload(payload)), eventTime,
            Str(received), payload, Str("testnet"), Num(0))
  }

  function NewLine(h: Hashing, last: string, c: Content): Line {
    Row(Closed(c), Str(last), Str(h.record(Closed(c), Str(last))))
  }

  function Saved(w: World, state: Counters): World {
    World(w.journal.(state := state), w.disk.(state := Some(Document(state))))
  }

  /** A document's event type and time, when they are ones the journal takes. */
  function Header(doc: Fields): Option<(Json, Json)> {
    var eventType, eventTime := Get(doc, "e"), Get(doc, "E");
    if eventType.None? || !IsAllowed(eventType.value) || eventTime.None? || !IsInteger(eventTime.value) then None
    else Some((eventType.value, eventTime.value))
  }

  /** An event type that is a list or an object cannot be looked up at all. */
  predicate Unhashable(doc: Fields) {
    Get(doc, "e").Some? && (Get(doc, "e").value.List? || Get(doc, "e").value.Obj?)
  }

  function AppendEvent(h: Hashing, w: World, c: Content): World
    requires c.eventType.Str? && c.stableId.Str?
  {
    var line := NewLine(h, w.journal.last, c);
    var digest := h.record(Closed(c), Str(w.journal.last));
    var state := w.journal.state.(last := digest, accepted := w.journal.state.accepted + 1,
                                  counts := Bump(w.journal.state.counts, c.eventType.s));
    World(Journal(w.journal.seen + {c.stableId.s}, digest, state),
          Disk(Some(LinesOf(w.disk) + [line]), Some(Document(state))))
  }

  function Deliver(h: Hashing, lower: string -> string, w: World, doc: Fields, received: string): (World, Recorded) {
    if Unhashable(doc) then (w, Raised)
    else if Header(doc).None? then (Saved(w, w.journal.state.(invalid := w.journal.state.invalid + 1)), Ignored)
    else
      var (eventType, eventTime) := Header(doc).value;
      var payload := Obj(SanitizeEvent(lower, doc));
      if h.payload(payload) in w.journal.seen
      then (Saved(w, w.journal.state.(duplicates := w.journal.state.duplicates + 1)), Ignored)
      else (AppendEvent(h, w, NewContent(h, eventType, eventTime, payload, received)), Accepted)
  }

  // ---------------------------------------------------------------- every run

  /** Memory and files agree, and the verifier accepts the evidence with exactly these figures. */
  ghost predicate InSync(h: Hashing, w: World) {
    && w.disk.state == Some(Document(w.journal.state))
    && w.journal.state.last == w.journal.last && IsDigest(w.journal.last)
    && Verify(h, LinesOf(w.disk))
       == Success(Evidence(w.journal.state.accepted, w.journal.state.counts, w.journal.last, w.journal.seen))
  }

  ghost predicate Digests(h: Hashing) {
    forall body, previous :: IsDigest(h.record(body, previous))
  }

  lemma VerifyOneMore(h: Hashing, lines: seq<Line>, line: Line)
    requires Verify(h, lines).Success?
    ensures Verify(h, lines + [line]) == CheckLine(h, Verify(h, lines).value, line)
  {
    assert (lines + [line])[..|lines|] == lines;
  }

  /** A line the journal writes passes the checks and adds its own figures. */
  lemma NewLinePasses(h: Hashing, e: Evidence, c: Content)
    requires Meaningful(h, c) && c.stableId.s !in e.seen
    ensures CheckLine(h, e, NewLine(h, e.final, c))
         == Success(Evidence(e.count + 1, Bump(e.counts, c.eventType.s), h.record(Closed(c), Str(e.final)),
                             e.seen + {c.stableId.s}))
  {
  }

  lemma AppendVerifies(h: Hashing, w: World, c: Content)
    requires Digests(h) && InSync(h, w) && Meaningful(h, c) && c.stableId.s !in w.journal.seen
    ensures InSync(h, AppendEvent(h, w, c))
  {
    VerifyOneMore(h, LinesOf(w.disk), NewLine(h, w.journal.last, c));
    NewLinePasses(h, Verify(h, LinesOf(w.disk)).value, c);
  }

  /** Every delivery keeps memory and files in step and only ever extends the evidence. */
  lemma DeliverKeepsSync(h: Hashing, lower: string -> string, w: World, doc: Fields, received: string)
    requires Digests(h) && InSync(h, w)
    ensures InSync(h, Deliver(h, lower, w, doc, received).0)
    ensures LinesOf(w.disk) <= LinesOf(Deliver(h, lower, w, doc, received).0.disk)
  {
    if Deliver(h, lower, w, doc, received).1.Accepted? {
      var (eventType, eventTime) := Header(doc).value;
      AppendVerifies(h, w, NewContent(h, eventType, eventTime, Obj(SanitizeEvent(lower, doc)), received));
    }
  }

  /** Restarting on synchronised files changes nothing. */
  lemma RestartRestores(h: Hashing, w: World)
    requires InSync(h, w)
    ensures Started(h, w.disk) == Success(w)
  {
  }

  /** Whatever was on disk, a start with the evidence present, or with nothing recorded, is in step. */
  lemma StartIsInSync(h: Hashing, disk: Disk)
    requires Digests(h) && Started(h, disk).Success?
    requires disk.evidence.None? ==> disk.state.None?
    ensures InSync(h, Started(h, disk).value)
  {
    if disk.evidence.Some? {
      FinalIsDigest(h, disk.evidence.value);
    }
  }

  lemma FinalIsDigest(h: Hashing, lines: seq<Line>)
    requires Digests(h) && Verify(h, lines).Success?
    ensures IsDigest(Verify(h, lines).value.final)
  {
    if lines != [] {
      LastLink(h, lines);
    }
  }

  // ---------------------------------------------------------------- crashes

  /** How far recording an accepted event had got: nothing, the file created, part of the line, the whole line. */
  datatype Crash = Untouched | Opened | Torn | Unsaved

  function CrashedDisk(h: Hashing, lower: string -> string, w: World, doc: Fields, received: string,
                       crash: Crash): Disk
  {
    var (after, recorded) := Deliver(h, lower, w, doc, received);
    if !recorded.Accepted? then w.disk
    else match crash
      case Untouched => w.disk
      case Opened => w.disk.(evidence := Some(LinesOf(w.disk)))
      case Torn => w.disk.(evidence := Some(LinesOf(w.disk) + [NotJson]))
      case Unsaved => w.disk.(evidence := after.disk.evidence)
  }

  lemma TornIsRefused(h: Hashing, w: World)
    requires InSync(h, w)
    ensures Started(h, w.disk.(evidence := Some(LinesOf(w.disk) + [NotJson]))).Failure?
  {
    VerifyOneMore(h, LinesOf(w.disk), NotJson);
  }

  /** A record the state file does not count yet is refused. */
  lemma UnsavedIsRefused(h: Hashing, w: World, after: World)
    requires InSync(h, w) && InSync(h, after) && after.journal.state.accepted != w.journal.state.accepted
    requires after.disk.evidence.Some?
    ensures Started(h, w.disk.(evidence := after.disk.evidence)).Failure?
  {
  }

  /** Restarting after a crash at any point restores exactly the journal before the event, or refuses. */
  lemma CrashRestart(h: Hashing, lower: string -> string, w: World, doc: Fields, received: string, crash: Crash)
    requires Digests(h) && InSync(h, w)
    ensures var lost := Deliver(h, lower, w, doc, received).1.Accepted? && (crash.Torn? || crash.Unsaved?);
      var restarted := Started(h, CrashedDisk(h, lower, w, doc, received, crash));
      && (restarted.Failure? <==> lost)
      && (restarted.Success? ==>
        restarted.value.journal == w.journal && LinesOf(restarted.value.disk) == LinesOf(w.disk))
  {
    RestartRestores(h, w);
    if Deliver(h, lower, w, doc, received).1.Accepted? {
      match crash
      case Torn => TornIsRefused(h, w);
      case Unsaved =>
        DeliverKeepsSync(h, lower, w, doc, received);
        UnsavedIsRefused(h, w, Deliver(h, lower, w, doc, received).0);
      case _ =>
    }
  }

  // ---------------------------------------------------------------- runs with restarts

  datatype Move =
    | Receive(doc: Fields, received: string)
    | Restart
    | CrashAndRestart(doc: Fields, received: string, crash: Crash)

  function After(h: Hashing, lower: string -> string, w: World, m: Move): Result<World, LoadError> {
    match m
    case Receive(doc, received) => Success(Deliver(h, lower, w, doc, received).0)
    case Restart => Started(h, w.disk)
    case CrashAndRestart(doc, received, crash) => Started(h, CrashedDisk(h, lower, w, doc, received, crash))
  }

  function RunFrom(h: Hashing, lower: string -> string, w: World, moves: seq<Move>): Result<World, LoadError>
    decreases |moves|
  {
    if moves == [] then Success(w)
    else
      var next := After(h, lower, w, moves[0]);
      if next.Failure? then next else RunFrom(h, lower, next.value, moves[1..])
  }

  lemma MoveKeepsSync(h: Hashing, lower: string -> string, w: World, m: Move)
    requires Digests(h) && InSync(h, w) && After(h, lower, w, m).Success?
    ensures InSync(h, After(h, lower, w, m).value)
    ensures LinesOf(w.disk) <= LinesOf(After(h, lower, w, m).value.disk)
  {
    match m
    case Receive(doc, received) => DeliverKeepsSync(h, lower, w, doc, received);
    case Restart => RestartRestores(h, w);
    case CrashAndRestart(doc, received, crash) => CrashRestart(h, lower, w, doc, received, crash);
  }

  /** Every run of deliveries, restarts and crashes that is not refused ends in step, having only extended the
      evidence. */
  lemma {:induction false} RunKeepsSync(h: Hashing, lower: string -> string, w: World, moves: seq<Move>)
    requires Digests(h) && InSync(h, w) && RunFrom(h, lower, w, moves).Success?
    ensures InSync(h, RunFrom(h, lower, w, moves).value)
    ensures LinesOf(w.disk) <= LinesOf(RunFrom(h, lower, w, moves).value.disk)
    decreases |moves|
  {
    if moves != [] {
      MoveKeepsSync(h, lower, w, moves[0]);
      RunKeepsSync(h, lower, After(h, lower, w, moves[0]).value, moves[1..]);
    }
  }

  /** From empty files, whatever is delivered and however it restarts, the evidence is one the verifier accepts. */
  lemma EveryRunIsVerifiable(h: Hashing, lower: string -> string, moves: seq<Move>)
    requires Digests(h)
    ensures var start := World(Journal({}, GENESIS, STARTING), Disk(None, Some(Document(STARTING))));
      && Started(h, Disk(None, None)) == Success(start)
      && (RunFrom(h, lower, start, moves).Success? ==>
            var w := RunFrom(h, lower, start, moves).value;
            InSync(h, w) && Chained(h, LinesOf(w.disk)) && w.journal.state.accepted == |LinesOf(w.disk)|)
  {
    var start := World(Journal({}, GENESIS, STARTING), Disk(None, Some(Document(STARTING))));
    StartIsInSync(h, Disk(None, None));
    if RunFrom(h, lower, start, moves).Success? {
      RunKeepsSync(h, lower, start, moves);
      AcceptsIffChained(h, LinesOf(RunFrom(h, lower, start, moves).value.disk));
    }
  }

  lemma {:induction false} SeenStays(h: Hashing, lines: seq<Line>, k: nat, id: string)
    requires k <= |lines| && Verify(h, lines).Success? && Verify(h, lines[..k]).Success?
    requires id in Verify(h, lines[..k]).value.seen
    ensures id in Verify(h, lines).value.seen
  {
    if k == |lines| {
      assert lines[..k] == lines;
    } else {
      assert lines[..|lines| - 1][..k] == lines[..k];
      LastLink(h, lines);
      SeenStays(h, lines[..|lines| - 1], k, id);
    }
  }

  /** A document delivered again, any number of moves and restarts later, adds nothing to the evidence. */
  lemma RedeliveryAddsNothing(h: Hashing, lower: string -> string, w: World, doc: Fields, r1: string,
                              moves: seq<Move>, r2: string)
    requires Digests(h) && InSync(h, w) && RunFrom(h, lower, Deliver(h, lower, w, doc, r1).0, moves).Success?
    ensures var later := RunFrom(h, lower, Deliver(h, lower, w, doc, r1).0, moves).value;
      Deliver(h, lower, later, doc, r2).0.disk.evidence == later.disk.evidence
  {
    var first := Deliver(h, lower, w, doc, r1).0;
    var later := RunFrom(h, lower, first, moves).value;
    DeliverKeepsSync(h, lower, w, doc, r1);
    RunKeepsSync(h, lower, first, moves);
    if !Unhashable(doc) && Header(doc).Some? {
      var k := |LinesOf(first.disk)|;
      assert LinesOf(later.disk)[..k] == LinesOf(first.disk);
      SeenStays(h, LinesOf(later.disk), k, h.payload(Obj(SanitizeEvent(lower, doc))));
    }
  }

  /** An evidence file put in place of the recorded one is refused at the next start, unless it breaks the hash. */
  lemma ReplacedEvidenceIsRefused(h: Hashing, w: World, lines: seq<Line>)
    requires InSync(h, w) && Started(h, w.disk.(evidence := Some(lines))).Success?
    ensures lines == LinesOf(w.disk) || HashBroken(h, lines, LinesOf(w.disk))
  {
    FinalDigestDeterminesFile(h, lines, LinesOf(w.disk));
  }

  // ---------------------------------------------------------------- lost evidence

  /** With the evidence file gone a start still succeeds, but is in step only if nothing had been recorded. */
  lemma StartWithoutEvidence(h: Hashing, state: Counters)
    requires IsDigest(state.last)
    ensures Started(h, Disk(None, Some(Document(state)))).Success?
    ensures InSync(h, Started(h, Disk(None, Some(Document(state)))).value)
            <==> state.accepted == 0 && state.counts == map[] && state.last == GENESIS
  {
  }

  /** The loss surfaces at the restart after the next accepted event. */
  lemma LostEvidenceIsCaught(h: Hashing, lower: string -> string, state: Counters, doc: Fields, received: string)
    requires Digests(h) && IsDigest(state.last) && state.accepted > 0
    ensures var w := Started(h, Disk(None, Some(Document(state)))).value;
      var (after, recorded) := Deliver(h, lower, w, doc, received);
      recorded.Accepted? ==> Started(h, after.disk).Failure?
  {
    var w := Started(h, Disk(None, Some(Document(state)))).value;
    var (after, recorded) := Deliver(h, lower, w, doc, received);
    if recorded.Accepted? && Verify(h, LinesOf(after.disk)).Success? {
      AcceptsIffChained(h, LinesOf(after.disk));
    }
  }

  // ---------------------------------------------------------------- the object

  /** The two files. */
  class Files {
    var evidence: Option<seq<Line>>
    var state: Option<StateFile>

    constructor ()
      ensures OnDisk() == Disk(None, None)
    {
      evidence, state := None, None;
    }

    function OnDisk(): Disk
      reads this
    {
      Disk(evidence, state)
    }
  }

  class UserDataEventJournal {
    const files: Files
    const h: Hashing
    const lower: string -> string
    var seen: set<string>
    var last: string
    var state: Counters

    function View(): World
      reads this, files
    {
      World(Journal(seen, last, state), files.OnDisk())
    }

    /** The fields of a journal about to be loaded. */
    constructor (files: Files, h: Hashing, lower: string -> string, j: Journal)
      ensures this.files == files && this.h == h && this.lower == lower
      ensures View() == World(j, files.OnDisk())
    {
      this.files, this.h, this.lower := files, h, lower;
      seen, last, state := j.seen, j.last, j.state;
    }

    /** Load what the files hold, or refuse; then write the state back. */
    static method Open(files: Files, h: Hashing, lower: string -> string)
      returns (r: Result<UserDataEventJournal, LoadError>)
      modifies files
      ensures Started(h, old(files.OnDisk())).Failure? ==>
        r == Failure(Started(h, old(files.OnDisk())).error) && files.OnDisk() == old(files.OnDisk())
      ensures Started(h, old(files.OnDisk())).Success? ==>
        r.Success? && fresh(r.value) && r.value.files == files && r.value.h == h && r.value.lower == lower
        && r.value.View() == Started(h, old(files.OnDisk())).value
    {
      var counters := STARTING;
      if files.state.Some? {
        if files.state.value.Unusable? || !IsDigest(files.state.value.counters.last) {
          return Failure(StateInvalid);
        }
        counters := files.state.value.counters;
      }
      var seen, last := {}, GENESIS;
      if files.evidence.Some? {
        var checked := VerifyUserDataEvidence(h, files.evidence.value);
        if checked.Failure? {
          return Failure(EvidenceInvalid(checked.error));
        }
        var e := checked.value;
        if files.state.Some?
           && (counters.accepted != e.count || counters.counts != e.counts || counters.last != e.final)
        {
          return Failure(StateMismatch);
        }
        seen, last := e.seen, e.final;
        counters := counters.(last := last);
        if files.state.None? {
          counters := counters.(accepted := e.count, counts := e.counts);
        }
      }
      var journal := new UserDataEventJournal(files, h, lower, Journal(seen, last, counters));
      journal.WriteState();
      return Success(journal);
    }

    method WriteState()
      modifies files`state
      ensures View() == Saved(old(View()), state)
    {
      files.state := Some(Document(state));
    }

    /** Link the record to the last one and append it. */
    method Append(content: Content)
      modifies this`last, this`state, files`evidence
      ensures files.evidence == Some(LinesOf(old(files.OnDisk())) + [NewLine(h, old(last), content)])
      ensures last == h.record(Closed(content), Str(old(last))) && state == old(state).(last := last)
    {
      var digest := h.record(Closed(content), Str(last));
      var record := Row(Closed(content), Str(last), Str(digest));
      files.evidence := Some((if files.evidence.None? then [] else files.evidence.value) + [record]);
      last := digest;
      state := state.(last := digest);
    }

    method RecordEvent(doc: Fields, received: string) returns (recorded: Recorded)
      modifies this, files
      ensures (View(), recorded) == Deliver(h, lower, old(View()), doc, received)
    {
      var eventType, eventTime := Get(doc, "e"), Get(doc, "E");
      if Unhashable(doc) {
        return Raised;
      }
      if eventType.None? || !IsAllowed(eventType.value) || eventTime.None? || !IsInteger(eventTime.value) {
        state := state.(invalid := state.invalid + 1);
        WriteState();
        return Ignored;
      }
      var payload := Obj(SanitizeEvent(lower, doc));
      var id := h.payload(payload);
      if id in seen {
        state := state.(duplicates := state.duplicates + 1);
        WriteState();
        return Ignored;
      }
      Append(NewContent(h, eventType.value, eventTime.value, payload, received));
      seen := seen + {id};
      state := state.(accepted := state.accepted + 1, counts := Bump(state.counts, eventType.value.s));
      WriteState();
      return Accepted;
    }
  }
}
