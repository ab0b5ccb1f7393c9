/**
 * The append-only, hash-chained execution log. The hash is a parameter: nothing is assumed of it beyond its output
 * format.
 */
module HashChain {
  import opened Prelude

  datatype Kind =
    | TaskStarted | FileEdited | TaskCompleted | TaskBlocked | Commit | Compensation | Resolution
    | Custom(name: string)
  {
    function Text(): string {
      match this
      case TaskStarted => "task_started"
      case FileEdited => "file_edited"
      case TaskCompleted => "task_completed"
      case TaskBlocked => "task_blocked"
      case Commit => "commit"
      case Compensation => "compensation"
      case Resolution => "resolution"
      case Custom(name) => name
    }
  }

  /** What a caller hands to `append_event`. A resolution of an unknown blocker has no subject. */
  datatype Event = Event(kind: Kind, subject: Option<string>, at: string, paths: seq<string>,
                         clientId: string, projectId: string)
  {
    /** The text hashed for the subject; a missing one is rendered as Python renders None. */
    function SubjectText(): string { if subject.Some? then subject.value else "None" }
  }

  /** An event as stored, with the three fields `append_event` adds. */
  datatype LogEvent = LogEvent(event: Event, sequence: int, previous: Option<string>, hash: string)

  type Hash = string -> string

  /** The output format of "sha256:<hex>": never empty, and free of the separator. */
  ghost predicate IsDigest(h: Hash) {
    forall x {:trigger h(x)} :: h(x) != "" && '|' !in h(x)
  }

  // ---- Payload text ---------------------------------------------------------------------------

  function Digit(d: nat): char
    requires d < 10
  {
    ('0' as int + d) as char
  }

  function Decimal(n: nat): string {
    if n < 10 then [Digit(n)] else Decimal(n / 10) + [Digit(n % 10)]
  }

  function PayloadBody(previous: Option<string>, kind: string, subject: string, at: string): string {
    (if previous.Some? then previous.value else "") + ("|" + (kind + ("|" + (subject + ("|" + at)))))
  }

  function Payload(sequence: nat, previous: Option<string>, kind: string, subject: string, at: string): string {
    Decimal(sequence) + ("|" + PayloadBody(previous, kind, subject, at))
  }

  function EventHash(h: Hash, sequence: nat, previous: Option<string>, e: Event): string {
    h(Payload(sequence, previous, e.kind.Text(), e.SubjectText(), e.at))
  }

  lemma {:induction false} DecimalFacts(n: nat)
    ensures Decimal(n) != "" && '|' !in Decimal(n)
  {
    if n >= 10 { DecimalFacts(n / 10); }
  }

  lemma {:induction false} DecimalInjective(m: nat, n: nat)
    requires Decimal(m) == Decimal(n)
    ensures m == n
  {
    DecimalFacts(m / 10);
    DecimalFacts(n / 10);
    var s, t := Decimal(m), Decimal(n);
    assert s[|s| - 1] == t[|t| - 1];
    assert Digit(m % 10) == s[|s| - 1] && Digit(n % 10) == t[|t| - 1];
    if m >= 10 && n >= 10 {
      assert s[..|s| - 1] == Decimal(m / 10) && t[..|t| - 1] == Decimal(n / 10);
      DecimalInjective(m / 10, n / 10);
    } else {
      assert m >= 10 ==> |s| >= 2;
      assert n >= 10 ==> |t| >= 2;
    }
  }

  /** The number a text of digits stands for in base ten. */
  function Value(digits: string): int {
    if digits == "" then 0
    else 10 * Value(digits[..|digits| - 1]) + (digits[|digits| - 1] as int - '0' as int)
  }

  lemma {:induction false} DecimalReads(n: nat)
    ensures Value(Decimal(n)) == n
  {
    if n < 10 {
      assert Decimal(n)[..0] == "";
    } else {
      DecimalReads(n / 10);
      assert Decimal(n)[..|Decimal(n)| - 1] == Decimal(n / 10);
    }
  }

  /** A field without the separator can be read back from the front of the text. */
  lemma {:induction false} SplitField(a: string, r: string, b: string, s: string)
    requires '|' !in a && '|' !in b && a + ("|" + r) == b + ("|" + s)
    ensures a == b && r == s
  {
    var x, y := a + ("|" + r), b + ("|" + s);
    if a == "" || b == "" {
      assert x[0] == y[0];
      assert x[1..] == r && y[1..] == s;
    } else {
      assert x[0] == a[0] && y[0] == b[0];
      assert x[1..] == a[1..] + ("|" + r) && y[1..] == b[1..] + ("|" + s);
      SplitField(a[1..], r, b[1..], s);
      assert a == [a[0]] + a[1..] && b == [b[0]] + b[1..];
    }
  }

  /** The log's name for each kind. */
  function NameOf(kind: Kind): string {
    match kind
    case TaskStarted => "task_started"
    case FileEdited => "file_edited"
    case TaskCompleted => "task_completed"
    case TaskBlocked => "task_blocked"
    case Commit => "commit"
    case Compensation => "compensation"
    case Resolution => "resolution"
    case Custom(name) => name
  }

  /** The engine's own kinds have different names. */
  lemma NamesDiffer(a: Kind, b: Kind)
    requires !a.Custom? && !b.Custom? && a.Text() == b.Text()
    ensures a == b
  {
    NameShape(a);
    NameShape(b);
  }

  lemma NameShape(kind: Kind)
    ensures kind.Text() == NameOf(kind)
    ensures var text := kind.Text();
      match kind {
        case TaskStarted => |text| == 12 && text[0] == 't' && text[5] == 's'
        case FileEdited => |text| == 11
        case TaskCompleted => |text| == 14
        case TaskBlocked => |text| == 12 && text[0] == 't' && text[5] == 'b'
        case Commit => |text| == 6
        case Compensation => |text| == 12 && text[0] == 'c'
        case Resolution => |text| == 10
        case Custom(_) => true
      }
  {
  }

  ghost predicate Clean(e: Event) {
    '|' !in e.kind.Text() && '|' !in e.SubjectText()
  }

  lemma PayloadInjective(m: nat, p: Option<string>, e: Event, n: nat, q: Option<string>, f: Event)
    requires Clean(e) && Clean(f)
    requires (p.Some? ==> '|' !in p.value && p.value != "") && (q.Some? ==> '|' !in q.value && q.value != "")
    requires Payload(m, p, e.kind.Text(), e.SubjectText(), e.at) == Payload(n, q, f.kind.Text(), f.SubjectText(), f.at)
    ensures m == n && p == q
    ensures e.kind.Text() == f.kind.Text() && e.SubjectText() == f.SubjectText() && e.at == f.at
  {
    var pt, qt := if p.Some? then p.value else "", if q.Some? then q.value else "";
    DecimalFacts(m);
    DecimalFacts(n);
    SplitField(Decimal(m), PayloadBody(p, e.kind.Text(), e.SubjectText(), e.at),
               Decimal(n), PayloadBody(q, f.kind.Text(), f.SubjectText(), f.at));
    DecimalInjective(m, n);
    SplitField(pt, e.kind.Text() + ("|" + (e.SubjectText() + ("|" + e.at))),
               qt, f.kind.Text() + ("|" + (f.SubjectText() + ("|" + f.at))));
    SplitField(e.kind.Text(), e.SubjectText() + ("|" + e.at), f.kind.Text(), f.SubjectText() + ("|" + f.at));
    SplitField(e.SubjectText(), e.at, f.SubjectText(), f.at);
  }

  // ---- Verification and append --------------------------------------------------------------------

  function PreviousHash(log: seq<LogEvent>, i: nat): Option<string>
    requires i <= |log|
  {
    if i == 0 then None else Some(log[i - 1].hash)
  }

  /** An empty stored hash reads as no hash. */
  function Stored(previous: Option<string>): Option<string> {
    if previous == Some("") then None else previous
  }

  ghost predicate VerifiedAt(h: Hash, log: seq<LogEvent>, i: nat)
    requires i < |log|
  {
    && log[i].sequence == i + 1
    && Stored(log[i].previous) == PreviousHash(log, i)
    && log[i].hash == EventHash(h, i + 1, PreviousHash(log, i), log[i].event)
  }

  ghost predicate Verified(h: Hash, log: seq<LogEvent>) {
    forall i: nat :: i < |log| ==> VerifiedAt(h, log, i)
  }

  /** One pass, carrying the previous hash. */
  method VerifyChain(h: Hash, log: seq<LogEvent>) returns (ok: bool)
    ensures ok <==> Verified(h, log)
  {
    var previous: Option<string> := None;
    for i := 0 to |log|
      invariant previous == PreviousHash(log, i)
      invariant forall j: nat :: j < i ==> VerifiedAt(h, log, j)
    {
      var e := log[i];
      if e.sequence != i + 1 || Stored(e.previous) != previous || e.hash != EventHash(h, i + 1, previous, e.event) {
        assert !VerifiedAt(h, log, i);
        return false;
      }
      previous := Some(e.hash);
    }
    ok := true;
  }

  /** The record `append_event` adds behind `log`. */
  function Stamped(h: Hash, log: seq<LogEvent>, e: Event): LogEvent {
    var previous := PreviousHash(log, |log|);
    LogEvent(e, |log| + 1, previous, EventHash(h, |log| + 1, previous, e))
  }

  /** The log that appending `events` one by one builds from nothing. */
  function Seal(h: Hash, events: seq<Event>): (log: seq<LogEvent>)
    ensures |log| == |events|
  {
    if events == [] then []
    else
      var n := |events| - 1;
      var log := Seal(h, events[..n]);
      log + [Stamped(h, log, events[n])]
  }

  lemma SealAppend(h: Hash, events: seq<Event>, e: Event)
    ensures Seal(h, events + [e]) == Seal(h, events) + [Stamped(h, Seal(h, events), e)]
  {
    assert (events + [e])[..|events|] == events;
  }

  lemma {:induction false} SealPrefix(h: Hash, events: seq<Event>, more: seq<Event>)
    ensures Seal(h, events) <= Seal(h, events + more)
    decreases |more|
  {
    if more == [] {
      assert events + more == events;
    } else {
      hide Stamped;
      var n := |more| - 1;
      SealPrefix(h, events, more[..n]);
      assert (events + more)[..|events| + n] == events + more[..n];
    }
  }

  lemma {:induction false} SealKeepsEvents(h: Hash, events: seq<Event>)
    ensures forall i: nat :: i < |events| ==> Seal(h, events)[i].event == events[i]
  {
    if events != [] { SealKeepsEvents(h, events[..|events| - 1]); }
  }

  lemma HashesAreDigests(h: Hash, log: seq<LogEvent>, i: nat)
    requires IsDigest(h) && Verified(h, log) && i <= |log|
    ensures var p := PreviousHash(log, i); p.Some? ==> '|' !in p.value && p.value != ""
  {
    if i > 0 {
      assert VerifiedAt(h, log, i - 1);
    }
  }

  /** Appending to any log that verifies gives a log that verifies, with the old one as a prefix. */
  lemma AppendKeepsVerified(h: Hash, log: seq<LogEvent>, e: Event)
    requires IsDigest(h) && Verified(h, log)
    ensures Verified(h, log + [Stamped(h, log, e)])
    ensures log <= log + [Stamped(h, log, e)]
  {
    var log' := log + [Stamped(h, log, e)];
    HashesAreDigests(h, log, |log|);
    forall i: nat | i < |log'| ensures VerifiedAt(h, log', i) {
      assert PreviousHash(log', i) == PreviousHash(log, i);
      if i < |log| {
        assert VerifiedAt(h, log, i);
      }
    }
  }

  lemma {:induction false} SealVerifies(h: Hash, events: seq<Event>)
    requires IsDigest(h)
    ensures Verified(h, Seal(h, events))
  {
    if events != [] {
      var n := |events| - 1;
      SealVerifies(h, events[..n]);
      AppendKeepsVerified(h, Seal(h, events[..n]), events[n]);
    }
  }

  ghost predicate CleanLog(log: seq<LogEvent>) {
    forall i :: 0 <= i < |log| ==> Clean(log[i].event)
  }

  /** Same type, subject, time and hash; types of the engine's own are the same kind. */
  ghost predicate SameRecord(a: LogEvent, b: LogEvent) {
    && (!a.event.kind.Custom? && !b.event.kind.Custom? ==> a.event.kind == b.event.kind)
    && a.event.kind.Text() == b.event.kind.Text()
    && a.event.SubjectText() == b.event.SubjectText()
    && a.event.at == b.event.at
    && a.hash == b.hash
  }

  /** The two logs tell the same story, position by position. */
  ghost predicate SameStory(a: seq<LogEvent>, b: seq<LogEvent>) {
    |a| == |b| && forall i :: 0 <= i < |a| ==> SameRecord(a[i], b[i])
  }

  /** The text hashed at position i of a verified log. */
  function PayloadAt(log: seq<LogEvent>, i: nat): string
    requires i < |log|
  {
    Payload(i + 1, PreviousHash(log, i), log[i].event.kind.Text(), log[i].event.SubjectText(), log[i].event.at)
  }

  /** The hashed text of a record, field by field: a missing link is empty, a missing subject reads "None". */
  function HashedText(sequence: nat, link: Option<string>, e: Event): string {
    Decimal(sequence) + "|" + (if link.Some? then link.value else "") + "|" + NameOf(e.kind) + "|"
    + (if e.subject.Some? then e.subject.value else "None") + "|" + e.at
  }

  lemma TextIsPayload(sequence: nat, link: Option<string>, e: Event)
    ensures HashedText(sequence, link, e) == Payload(sequence, link, e.kind.Text(), e.SubjectText(), e.at)
  {
    hide Decimal, Kind.Text;
    NameShape(e.kind);
  }

  /** A record fits at position i: its number, its link and its hash are right, and the record behind it links to it. */
  ghost predicate Fitting(h: Hash, log: seq<LogEvent>, i: nat, r: LogEvent)
    requires i < |log|
  {
    var link := if i == 0 then None else Some(log[i - 1].hash);
    && r.sequence == i + 1
    && (r.previous == link || (link == None && r.previous == Some("")))
    && r.hash == h(HashedText(i + 1, link, r.event))
    && (i < |log| - 1 ==> r.hash == log[i].hash)
  }

  lemma RecordHash(h: Hash, sequence: nat, link: Option<string>, e: Event)
    ensures EventHash(h, sequence, link, e) == h(HashedText(sequence, link, e))
  {
    hide HashedText, Payload;
    TextIsPayload(sequence, link, e);
  }

  /** Exactly which single records can be replaced without verification noticing: those that fit in their place. */
  lemma ReplacedRecord(h: Hash, log: seq<LogEvent>, i: nat, r: LogEvent)
    requires IsDigest(h) && Verified(h, log) && i < |log|
    ensures Verified(h, log[i := r]) <==> Fitting(h, log, i, r)
  {
    hide HashedText, Payload, EventHash;
    var log' := log[i := r];
    var link := PreviousHash(log, i);
    HashesAreDigests(h, log, i);
    RecordHash(h, i + 1, link, r.event);
    assert VerifiedAt(h, log', i) <==>
           r.sequence == i + 1 && Stored(r.previous) == link && r.hash == h(HashedText(i + 1, link, r.event));
    if i < |log| - 1 {
      assert VerifiedAt(h, log, i + 1);
      assert VerifiedAt(h, log', i + 1) ==> r.hash == log[i].hash;
    }
    if Fitting(h, log, i, r) {
      forall j: nat | j < |log'| ensures VerifiedAt(h, log', j) {
        if j != i {
          assert VerifiedAt(h, log, j);
          assert PreviousHash(log', j) == PreviousHash(log, j);
        }
      }
    }
  }

  /** These two positions hash different texts to the same value. */
  predicate Collide(h: Hash, a: seq<LogEvent>, i: nat, b: seq<LogEvent>, j: nat)
    requires i < |a| && j < |b|
  {
    PayloadAt(a, i) != PayloadAt(b, j) && h(PayloadAt(a, i)) == h(PayloadAt(b, j))
  }

  lemma HashOfPayload(h: Hash, log: seq<LogEvent>, i: nat)
    requires Verified(h, log) && i < |log|
    ensures log[i].hash == h(PayloadAt(log, i))
  {
    assert VerifiedAt(h, log, i);
  }

  /** Equal hashes at two positions of verified logs: same position and content, or their payloads collide. */
  lemma EqualHashes(h: Hash, a: seq<LogEvent>, i: nat, b: seq<LogEvent>, j: nat)
    requires IsDigest(h) && Verified(h, a) && Verified(h, b)
    requires i < |a| && j < |b| && Clean(a[i].event) && Clean(b[j].event)
    requires a[i].hash == b[j].hash && !Collide(h, a, i, b, j)
    ensures i == j && PreviousHash(a, i) == PreviousHash(b, j)
    ensures SameRecord(a[i], b[j])
  {
    HashOfPayload(h, a, i);
    HashOfPayload(h, b, j);
    HashesAreDigests(h, a, i);
    HashesAreDigests(h, b, j);
    PayloadInjective(i + 1, PreviousHash(a, i), a[i].event, j + 1, PreviousHash(b, j), b[j].event);
    if !a[i].event.kind.Custom? && !b[j].event.kind.Custom? {
      NamesDiffer(a[i].event.kind, b[j].event.kind);
    }
  }

  /** A shared hash at position i pins every earlier position, down to the first pair of payloads that collides. */
  lemma {:induction false} HashPinsPosition(h: Hash, a: seq<LogEvent>, b: seq<LogEvent>, i: nat, k: nat)
    requires IsDigest(h) && Verified(h, a) && Verified(h, b) && CleanLog(a) && CleanLog(b)
    requires k <= i < |a| && i < |b| && a[i].hash == b[i].hash
    requires forall m :: k <= m <= i ==> !Collide(h, a, m, b, m)
    ensures SameRecord(a[k], b[k])
    decreases i
  {
    hide Collide, Verified, SameRecord;
    EqualHashes(h, a, i, b, i);
    if k < i {
      HashPinsPosition(h, a, b, i - 1, k);
    }
  }

  /** The payloads of the two logs collide at their last positions or at one common position. */
  ghost predicate LogsCollide(h: Hash, a: seq<LogEvent>, b: seq<LogEvent>)
    requires a != [] && b != []
  {
    || Collide(h, a, |a| - 1, b, |b| - 1)
    || exists k: nat :: k < |a| && k < |b| && Collide(h, a, k, b, k)
  }

  /** The last hash pins the whole log, for any hash function, unless payloads of these very logs collide. */
  lemma LastHashPinsLog(h: Hash, a: seq<LogEvent>, b: seq<LogEvent>)
    requires IsDigest(h) && Verified(h, a) && Verified(h, b) && CleanLog(a) && CleanLog(b)
    requires a != [] && b != [] && a[|a| - 1].hash == b[|b| - 1].hash
    ensures SameStory(a, b) || LogsCollide(h, a, b)
  {
    hide Collide, Verified, SameRecord, CleanLog;
    if !LogsCollide(h, a, b) {
      CleanAt(a, |a| - 1);
      CleanAt(b, |b| - 1);
      EqualHashes(h, a, |a| - 1, b, |b| - 1);
      forall k | 0 <= k < |a| ensures SameRecord(a[k], b[k]) {
        HashPinsPosition(h, a, b, |a| - 1, k);
      }
    }
  }

  lemma CleanAt(log: seq<LogEvent>, i: nat)
    requires CleanLog(log) && i < |log|
    ensures Clean(log[i].event)
  {
  }

  /** Two positions of a log hash different texts: the first field is the position. Subjects may be any text. */
  lemma PayloadsDiffer(log: seq<LogEvent>, i: nat, j: nat)
    requires i < j < |log|
    ensures PayloadAt(log, i) != PayloadAt(log, j)
  {
    var e, f := log[i].event, log[j].event;
    if PayloadAt(log, i) == PayloadAt(log, j) {
      DecimalFacts(i + 1);
      DecimalFacts(j + 1);
      SplitField(Decimal(i + 1), PayloadBody(PreviousHash(log, i), e.kind.Text(), e.SubjectText(), e.at),
                 Decimal(j + 1), PayloadBody(PreviousHash(log, j), f.kind.Text(), f.SubjectText(), f.at));
      DecimalInjective(i + 1, j + 1);
    }
  }

  /** Two positions of one verified log share a hash exactly when their payloads collide. */
  lemma HashesAreDistinct(h: Hash, log: seq<LogEvent>, i: nat, j: nat)
    requires Verified(h, log) && i < j < |log|
    ensures log[i].hash == log[j].hash <==> Collide(h, log, i, log, j)
  {
    HashOfPayload(h, log, i);
    HashOfPayload(h, log, j);
    PayloadsDiffer(log, i, j);
  }
}
