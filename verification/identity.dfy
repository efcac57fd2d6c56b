/**
 Length-framed identities: the unique key of a job, the fingerprint stored in a transition receipt, and the
 deterministic IDs of workflow facts. Each is a digest of framed parts; the model keeps the framed bytes.
 */
module Identity {
  import opened Common
  import opened WorkflowTypes

  // ---------- Length framing ----------

  const SIZE_BYTES: nat := 8
  const SIZE_LIMIT: nat := 0x1_0000_0000_0000_0000

  function Pow256(k: nat): nat {
    if k == 0 then 1 else 256 * Pow256(k - 1)
  }

  /** The k lowest bytes of n, most significant first. */
  function BigEndian(n: nat, k: nat): (s: string)
    ensures |s| == k
  {
    if k == 0 then "" else BigEndian(n / 256, k - 1) + [(n % 256) as char]
  }

  function FromBigEndian(s: string): nat {
    if s == "" then 0 else 256 * FromBigEndian(s[..|s| - 1]) + s[|s| - 1] as nat
  }

  lemma {:induction false} BigEndianRoundTrip(n: nat, k: nat)
    requires n < Pow256(k)
    ensures FromBigEndian(BigEndian(n, k)) == n
  {
    if k > 0 {
      BigEndianRoundTrip(n / 256, k - 1);
      assert BigEndian(n, k)[..k - 1] == BigEndian(n / 256, k - 1);
    }
  }

  lemma SizeFits()
    ensures Pow256(SIZE_BYTES) == SIZE_LIMIT
  {
  }

  function Frame(part: string): string {
    BigEndian(|part|, SIZE_BYTES) + part
  }

  function FrameAll(parts: seq<string>): string {
    if parts == [] then "" else Frame(parts[0]) + FrameAll(parts[1..])
  }

  /** A length that a Go slice can have. */
  predicate Framable(parts: seq<string>) {
    forall i :: 0 <= i < |parts| ==> |parts[i]| < SIZE_LIMIT
  }

  /** The reader of a framed stream. */
  function Unframe(stream: string): Option<seq<string>>
    decreases |stream|
  {
    if stream == "" then Some([])
    else if |stream| < SIZE_BYTES then None
    else
      var size := FromBigEndian(stream[..SIZE_BYTES]);
      if |stream| < SIZE_BYTES + size then None
      else
        match Unframe(stream[SIZE_BYTES + size..])
        case None => None
        case Some(rest) => Some([stream[SIZE_BYTES..SIZE_BYTES + size]] + rest)
  }

  lemma FrameSize(part: string)
    requires |part| < SIZE_LIMIT
    ensures FromBigEndian(BigEndian(|part|, SIZE_BYTES)) == |part|
  {
    SizeFits();
    BigEndianRoundTrip(|part|, SIZE_BYTES);
  }

  /** The reader takes one frame off the stream. */
  lemma UnframeHead(part: string, rest: string)
    requires |part| < SIZE_LIMIT
    ensures Unframe(Frame(part) + rest)
            == match Unframe(rest) case None => None case Some(parts) => Some([part] + parts)
  {
    var stream := Frame(part) + rest;
    FrameSize(part);
    assert stream[..SIZE_BYTES] == BigEndian(|part|, SIZE_BYTES);
    assert stream[SIZE_BYTES..SIZE_BYTES + |part|] == part;
    assert stream[SIZE_BYTES + |part|..] == rest;
  }

  lemma {:induction false} FramingRoundTrip(parts: seq<string>)
    requires Framable(parts)
    ensures Unframe(FrameAll(parts)) == Some(parts)
  {
    if parts != [] {
      FramingRoundTrip(parts[1..]);
      UnframeHead(parts[0], FrameAll(parts[1..]));
      assert parts == [parts[0]] + parts[1..];
    }
  }

  /** Differently partitioned values never share a framed stream. */
  lemma FramingInjective(a: seq<string>, b: seq<string>)
    requires Framable(a) && Framable(b)
    ensures FrameAll(a) == FrameAll(b) <==> a == b
  {
    FramingRoundTrip(a);
    FramingRoundTrip(b);
  }

  lemma {:induction false} FrameAllAppend(parts: seq<string>, part: string)
    ensures FrameAll(parts + [part]) == FrameAll(parts) + Frame(part)
  {
    if parts == [] {
      assert parts + [part] == [part];
      assert FrameAll([part]) == Frame(part) + FrameAll([]);
    } else {
      assert (parts + [part])[1..] == parts[1..] + [part];
      FrameAllAppend(parts[1..], part);
    }
  }

  /** The hashing loop: every value is written after its eight-byte size. */
  method WriteFramed(values: seq<string>) returns (stream: string)
    ensures stream == FrameAll(values)
  {
    stream := "";
    for i := 0 to |values|
      invariant stream == FrameAll(values[..i])
    {
      FrameAllAppend(values[..i], values[i]);
      assert values[..i] + [values[i]] == values[..i + 1];
      stream := stream + BigEndian(|values[i]|, SIZE_BYTES);
      stream := stream + values[i];
    }
    assert values[..|values|] == values;
  }

  // ---------- Decimal text ----------

  function Digit(n: nat): char
    requires n < 10
  {
    '0' + n as char
  }

  function DecimalNat(n: nat): (s: string)
    ensures |s| > 0 && '0' <= s[0] <= '9'
  {
    if n < 10 then [Digit(n)] else DecimalNat(n / 10) + [Digit(n % 10)]
  }

  function Decimal(n: int): string {
    if n < 0 then "-" + DecimalNat(-n) else DecimalNat(n)
  }

  function ParseNat(s: string): int {
    if s == "" then 0 else 10 * ParseNat(s[..|s| - 1]) + (s[|s| - 1] as int - '0' as int)
  }

  lemma {:induction false} DecimalNatRoundTrip(n: nat)
    ensures ParseNat(DecimalNat(n)) == n
  {
    var s := DecimalNat(n);
    if n >= 10 {
      DecimalNatRoundTrip(n / 10);
      assert s[..|s| - 1] == DecimalNat(n / 10);
    } else {
      assert s[..|s| - 1] == "";
    }
  }

  function Parse(s: string): int {
    if s != "" && s[0] == '-' then -ParseNat(s[1..]) else ParseNat(s)
  }

  lemma DecimalRoundTrip(n: int)
    ensures Parse(Decimal(n)) == n
  {
    if n < 0 {
      assert Decimal(n)[1..] == DecimalNat(-n);
      DecimalNatRoundTrip(-n);
    } else {
      DecimalNatRoundTrip(n);
    }
  }

  lemma DecimalInjective(a: int, b: int)
    ensures Decimal(a) == Decimal(b) ==> a == b
  {
    DecimalRoundTrip(a);
    DecimalRoundTrip(b);
  }

  // ---------- Unique job keys ----------

  const UNIQUE_KEY_VERSION := "goforj:queue:unique:v1"

  /** An absent payload and JSON null are the same logical payload. */
  function CanonicalPayload(payload: string): string {
    if payload == "" || payload == "null" then "" else payload
  }

  function UniqueKey(queue: string, jobType: string, payload: string): string {
    UNIQUE_KEY_VERSION + Frame(queue) + Frame(jobType) + Frame(CanonicalPayload(payload))
  }

  predicate SamePayload(a: string, b: string) {
    a == b || (a in {"", "null"} && b in {"", "null"})
  }

  lemma FrameThree(a: string, b: string, c: string)
    ensures FrameAll([a, b, c]) == Frame(a) + Frame(b) + Frame(c)
  {
    assert [a, b, c] == [] + [a] + [b] + [c];
    FrameAllAppend([], a);
    FrameAllAppend([] + [a], b);
    FrameAllAppend([] + [a] + [b], c);
  }

  /** Two jobs share a unique key exactly when queue and type agree and their payloads are the same logical payload. */
  lemma UniqueKeyIdentity(q1: string, t1: string, p1: string, q2: string, t2: string, p2: string)
    requires Framable([q1, t1, p1]) && Framable([q2, t2, p2])
    ensures UniqueKey(q1, t1, p1) == UniqueKey(q2, t2, p2) <==> q1 == q2 && t1 == t2 && SamePayload(p1, p2)
  {
    var a, b := [q1, t1, CanonicalPayload(p1)], [q2, t2, CanonicalPayload(p2)];
    assert |p1| == |[q1, t1, p1][2]| && |p2| == |[q2, t2, p2][2]|;
    assert |q1| == |[q1, t1, p1][0]| && |q2| == |[q2, t2, p2][0]|;
    assert |t1| == |[q1, t1, p1][1]| && |t2| == |[q2, t2, p2][1]|;
    FrameThree(q1, t1, CanonicalPayload(p1));
    FrameThree(q2, t2, CanonicalPayload(p2));
    assert UniqueKey(q1, t1, p1) == UNIQUE_KEY_VERSION + FrameAll(a);
    assert UniqueKey(q2, t2, p2) == UNIQUE_KEY_VERSION + FrameAll(b);
    var n := |UNIQUE_KEY_VERSION|;
    assert UniqueKey(q1, t1, p1)[n..] == FrameAll(a) && UniqueKey(q2, t2, p2)[n..] == FrameAll(b);
    FramingInjective(a, b);
    assert a == b <==> a[0] == b[0] && a[1] == b[1] && a[2] == b[2];
  }

  // ---------- Receipt fingerprints ----------

  function FingerprintParts(job: StoredJob): seq<string> {
    [job.jobType, job.payload, job.options.queue, Decimal(job.options.delay), Decimal(job.options.timeout),
     Decimal(job.options.retry), Decimal(job.options.backoff), Decimal(job.options.uniqueFor)]
  }

  function Fingerprint(job: StoredJob): (s: string)
    ensures s != ""
  {
    FrameAll(FingerprintParts(job))
  }

  /** A receipt fingerprint is equal exactly when every immutable field of the job is. */
  lemma FingerprintIdentity(a: StoredJob, b: StoredJob)
    requires Framable(FingerprintParts(a)) && Framable(FingerprintParts(b))
    ensures Fingerprint(a) == Fingerprint(b) <==> a == b
  {
    var p, q := FingerprintParts(a), FingerprintParts(b);
    FramingInjective(p, q);
    if p == q {
      assert p[0] == q[0] && p[1] == q[1] && p[2] == q[2];
      assert p[3] == q[3] && p[4] == q[4] && p[5] == q[5] && p[6] == q[6] && p[7] == q[7];
      DecimalInjective(a.options.delay, b.options.delay);
      DecimalInjective(a.options.timeout, b.options.timeout);
      DecimalInjective(a.options.retry, b.options.retry);
      DecimalInjective(a.options.backoff, b.options.backoff);
      DecimalInjective(a.options.uniqueFor, b.options.uniqueFor);
    }
  }

  // ---------- Fact identifiers ----------

  datatype FactKind = JobSucceeded | ChainAdvanced | ChainCompleted | BatchProgressed | BatchCompleted

  function KindName(kind: FactKind): string {
    match kind
    case JobSucceeded => "job_succeeded"
    case ChainAdvanced => "chain_advanced"
    case ChainCompleted => "chain_completed"
    case BatchProgressed => "batch_progressed"
    case BatchCompleted => "batch_completed"
  }

  function FactParts(kind: FactKind, identity: seq<string>): seq<string> {
    [Decimal(EVENT_SCHEMA_VERSION), KindName(kind)] + identity
  }

  function StableFactId(kind: FactKind, identity: seq<string>): string {
    FrameAll(FactParts(kind, identity))
  }

  /** The type-and-payload correlation of a job. It is not framed; facts frame the type separately. */
  function EventKey(job: StoredJob): string {
    job.jobType + ":" + CanonicalPayload(job.payload)
  }

  /** One deterministic ID never labels two different facts. */
  lemma FactIdIdentity(k1: FactKind, i1: seq<string>, k2: FactKind, i2: seq<string>)
    requires Framable(FactParts(k1, i1)) && Framable(FactParts(k2, i2))
    ensures StableFactId(k1, i1) == StableFactId(k2, i2) <==> k1 == k2 && i1 == i2
  {
    var a, b := FactParts(k1, i1), FactParts(k2, i2);
    FramingInjective(a, b);
    if a == b {
      assert a[1] == b[1] && a[2..] == i1 && b[2..] == i2;
      KindNameInjective(k1, k2);
    }
  }

  lemma KindNameInjective(a: FactKind, b: FactKind)
    ensures KindName(a) == KindName(b) ==> a == b
  {
  }
}
