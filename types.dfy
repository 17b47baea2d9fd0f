/** The records of beadcrumbs (insights, threads, dependencies) and their
    constructors. A `time.Time` is an `int` counting seconds from Go's zero
    time, so `IsZero` is `t == 0`; the wall clock and `crypto/rand` are
    parameters `now` and `rnd`. */
module Types {
  import opened Text

  type Time = int

  const ZeroTime: Time := 0

  /** Seconds from Go's zero time (1 January of year 1, UTC) to the Unix
      epoch, so that `time.Unix(e, 0)` is `e + UnixEpoch`. */
  const UnixEpoch: Time := 62135596800

  // ----- insight types

  const Hypothesis: string := "hypothesis"
  const Discovery: string := "discovery"
  const Question: string := "question"
  const Feedback: string := "feedback"
  const Pivot: string := "pivot"
  const Decision: string := "decision"

  /** `InsightType.IsValid`. */
  predicate IsValidType(t: string) {
    t == Hypothesis || t == Discovery || t == Question || t == Feedback || t == Pivot || t == Decision
  }

  /** `ValidInsightTypes`: exactly the valid types, each once. */
  function ValidInsightTypes(): (r: seq<string>)
    ensures forall t :: t in r <==> IsValidType(t)
    ensures |r| == 6
    ensures forall i, j :: 0 <= i < j < |r| ==> r[i] != r[j]
  {
    [Hypothesis, Discovery, Question, Feedback, Pivot, Decision]
  }

  // ----- thread statuses and dependency types

  const Active: string := "active"
  const Concluded: string := "concluded"
  const Abandoned: string := "abandoned"

  const BuildsOn: string := "builds-on"
  const Supersedes: string := "supersedes"
  const Contradicts: string := "contradicts"
  const Spawns: string := "spawns"
  const InformedBy: string := "informed-by"

  // ----- records

  /** A `float32`, kept as its IEEE-754 bit pattern: the core only stores
      and copies confidences, it never computes with them. */
  datatype Float32 = Float32(bits: bv32)

  const ConfidenceHuman: Float32 := Float32(0x3F80_0000)      // 1.0
  const ConfidenceAiSession: Float32 := Float32(0x3F33_3333)  // 0.7
  const ConfidenceSlack: Float32 := Float32(0x3F19_999A)      // 0.6

  /** `InsightSource`. */
  datatype Source = Source(kind: string, ref: string, participants: seq<string>)

  /** `Insight`; `tags` is serialised under the name "labels". */
  datatype Insight = Insight(
    id: string,
    timestamp: Time,
    content: string,
    summary: string,
    kind: string,
    confidence: Float32,
    source: Source,
    threadId: string,
    authorId: string,
    endorsedBy: seq<string>,
    tags: seq<string>,
    createdBy: string,
    createdAt: Time)

  /** `InsightThread`. */
  datatype Thread = Thread(
    id: string,
    title: string,
    status: string,
    currentUnderstanding: string,
    createdAt: Time,
    updatedAt: Time)

  /** `Dependency`: an edge `from -> to` of the given kind. */
  datatype Dependency = Dependency(from: string, to: string, kind: string, createdAt: Time)

  // ----- identifiers

  /** The four bytes `crypto/rand.Read` fills. */
  datatype RandomWord = RandomWord(b0: Byte, b1: Byte, b2: Byte, b3: Byte)

  newtype Byte = x: int | 0 <= x < 256

  predicate IsHexDigit(c: char) {
    '0' <= c <= '9' || 'a' <= c <= 'f'
  }

  function HexDigit(n: int): (c: char)
    requires 0 <= n < 16
    ensures IsHexDigit(c)
  {
    if n < 10 then ('0' as int + n) as char else ('a' as int + n - 10) as char
  }

  /** The inverse of `HexDigit`. */
  function HexValue(c: char): (n: int)
    requires IsHexDigit(c)
    ensures 0 <= n < 16 && HexDigit(n) == c
  {
    if c <= '9' then c as int - '0' as int else c as int - 'a' as int + 10
  }

  lemma HexValueOfDigit(n: int)
    requires 0 <= n < 16
    ensures HexValue(HexDigit(n)) == n
  {
  }

  /** `hex.EncodeToString` of one byte. */
  function HexByte(b: Byte): string {
    [HexDigit(b as int / 16), HexDigit(b as int % 16)]
  }

  /** `GenerateID`: the prefix, a dash and the first four hex digits of
      the random bytes, which are the digits of the first two bytes. */
  function GenerateID(prefix: string, rnd: RandomWord): (r: string)
    ensures |r| == |prefix| + 5
    ensures HasPrefix(r, prefix + "-")
    ensures forall i :: |prefix| + 1 <= i < |r| ==> IsHexDigit(r[i])
  {
    prefix + "-" + (HexByte(rnd.b0) + HexByte(rnd.b1) + HexByte(rnd.b2) + HexByte(rnd.b3))[..4]
  }

  /** Reads the two bytes back from the digits of an identifier made by
      `GenerateID`. */
  function IdBytes(id: string, prefixLen: nat): (r: (Byte, Byte))
    requires |id| == prefixLen + 5
    requires forall i :: prefixLen + 1 <= i < |id| ==> IsHexDigit(id[i])
  {
    var p := prefixLen + 1;
    ((HexValue(id[p]) * 16 + HexValue(id[p + 1])) as Byte,
     (HexValue(id[p + 2]) * 16 + HexValue(id[p + 3])) as Byte)
  }

  /** The identifier determines the first two random bytes and nothing
      else: so `GenerateID` yields 65536 identifiers per prefix. */
  lemma {:induction false} GenerateIDBytes(prefix: string, rnd: RandomWord)
    ensures IdBytes(GenerateID(prefix, rnd), |prefix|) == (rnd.b0, rnd.b1)
  {
    var id := GenerateID(prefix, rnd);
    var p := |prefix| + 1;
    assert id[p..] == HexByte(rnd.b0) + HexByte(rnd.b1);
    HexValueOfDigit(rnd.b0 as int / 16);
    HexValueOfDigit(rnd.b0 as int % 16);
    HexValueOfDigit(rnd.b1 as int / 16);
    HexValueOfDigit(rnd.b1 as int % 16);
  }

  lemma GenerateIDInjective(prefix: string, r1: RandomWord, r2: RandomWord)
    ensures GenerateID(prefix, r1) == GenerateID(prefix, r2) <==> (r1.b0 == r2.b0 && r1.b1 == r2.b1)
  {
    if GenerateID(prefix, r1) == GenerateID(prefix, r2) {
      GenerateIDBytes(prefix, r1);
      GenerateIDBytes(prefix, r2);
    }
  }

  // ----- constructors

  /** `NewInsight`: a human insight with full confidence, stamped now. */
  function NewInsight(content: string, kind: string, now: Time, rnd: RandomWord): (r: Insight)
    ensures HasPrefix(r.id, "ins-") && |r.id| == 8
    ensures r.timestamp == now && r.createdAt == now
    ensures r.content == content && r.kind == kind && r.summary == ""
    ensures r.confidence == ConfidenceHuman && r.source == Source("human", "", [])
    ensures r.threadId == "" && r.authorId == "" && r.createdBy == ""
    ensures r.endorsedBy == [] && r.tags == []
  {
    Insight(GenerateID("ins", rnd), now, content, "", kind, ConfidenceHuman,
            Source("human", "", []), "", "", [], [], "", now)
  }

  /** `NewInsightWithTimestamp`: like `NewInsight`, but the moment of
      understanding is `timestamp` unless that is the zero time. */
  function NewInsightWithTimestamp(content: string, kind: string, timestamp: Time, now: Time, rnd: RandomWord): (r: Insight)
    ensures timestamp != ZeroTime ==> r.timestamp == timestamp
    ensures timestamp == ZeroTime ==> r.timestamp == now
    ensures r.createdAt == now
    ensures r.(timestamp := now) == NewInsight(content, kind, now, rnd)
  {
    var t := if timestamp == ZeroTime then now else timestamp;
    Insight(GenerateID("ins", rnd), t, content, "", kind, ConfidenceHuman,
            Source("human", "", []), "", "", [], [], "", now)
  }

  /** `NewThread`: an active thread created and updated now. */
  function NewThread(title: string, now: Time, rnd: RandomWord): (r: Thread)
    ensures HasPrefix(r.id, "thr-") && |r.id| == 8
    ensures r.title == title && r.status == Active && r.currentUnderstanding == ""
    ensures r.createdAt == now && r.updatedAt == now
  {
    Thread(GenerateID("thr", rnd), title, Active, "", now, now)
  }

  /** `NewDependency`: an edge created now. */
  function NewDependency(from: string, to: string, kind: string, now: Time): (r: Dependency)
    ensures r.from == from && r.to == to && r.kind == kind && r.createdAt == now
  {
    Dependency(from, to, kind, now)
  }
}
