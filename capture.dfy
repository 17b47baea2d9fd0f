/** `bdc capture`: records one insight, its type chosen by `--type` or by
    one of the six shorthand flags. */
module Capture {
  import opened Wrappers
  import opened Text
  import opened Types
  import opened Storage
  import opened Root

  /** The type flags of the command line. */
  datatype TypeFlags = TypeFlags(
    typeName: string,
    hypothesis: bool,
    discovery: bool,
    question: bool,
    feedback: bool,
    pivot: bool,
    decision: bool)

  /** How many shorthand flags are set. */
  function ShorthandCount(f: TypeFlags): (r: nat)
    ensures r <= 6
  {
    (if f.hypothesis then 1 else 0) + (if f.discovery then 1 else 0) + (if f.question then 1 else 0)
      + (if f.feedback then 1 else 0) + (if f.pivot then 1 else 0) + (if f.decision then 1 else 0)
  }

  /** The type of the last shorthand flag set, in flag order; "" when none
      is. */
  function LastShorthand(f: TypeFlags): (r: string)
    ensures r == "" <==> ShorthandCount(f) == 0
    ensures r != "" ==> IsValidType(r)
  {
    if f.decision then Decision
    else if f.pivot then Pivot
    else if f.feedback then Feedback
    else if f.question then Question
    else if f.discovery then Discovery
    else if f.hypothesis then Hypothesis
    else ""
  }

  /** The rules of `determineInsightType`: `--type` excludes the
      shorthands and must name a valid type; otherwise one shorthand picks
      the type, several are an error, and none means discovery. */
  function InsightTypeOf(f: TypeFlags): Result<string> {
    if f.typeName != "" then
      if ShorthandCount(f) > 0 then Err(TypeAndShorthand)
      else if !IsValidType(f.typeName) then Err(InvalidInsightType(f.typeName))
      else Ok(f.typeName)
    else if ShorthandCount(f) == 1 then Ok(LastShorthand(f))
    else if ShorthandCount(f) > 1 then Err(MultipleTypeFlags)
    else Ok(Discovery)
  }

  /** `determineInsightType`: counts the set shorthands, the last one
      seen being the candidate. */
  method DetermineInsightType(f: TypeFlags) returns (r: Result<string>)
    ensures r == InsightTypeOf(f)
  {
    var count := 0;
    var selectedType := "";
    if f.hypothesis {
      count := count + 1;
      selectedType := Hypothesis;
    }
    if f.discovery {
      count := count + 1;
      selectedType := Discovery;
    }
    if f.question {
      count := count + 1;
      selectedType := Question;
    }
    if f.feedback {
      count := count + 1;
      selectedType := Feedback;
    }
    if f.pivot {
      count := count + 1;
      selectedType := Pivot;
    }
    if f.decision {
      count := count + 1;
      selectedType := Decision;
    }
    if f.typeName != "" {
      if count > 0 {
        return Err(TypeAndShorthand);
      }
      if !IsValidType(f.typeName) {
        return Err(InvalidInsightType(f.typeName));
      }
      return Ok(f.typeName);
    }
    if count == 1 {
      return Ok(selectedType);
    }
    if count > 1 {
      return Err(MultipleTypeFlags);
    }
    return Ok(Discovery);
  }

  /** Whatever the flags, a type that is accepted is one of the six. */
  lemma ChosenTypeValid(f: TypeFlags)
    ensures InsightTypeOf(f).Ok? ==> IsValidType(InsightTypeOf(f).value)
  {
  }

  /** The flags with only the `k`-th shorthand set (in the order of
      `ValidInsightTypes`). */
  function OnlyShorthand(k: nat): TypeFlags
    requires k < 6
  {
    TypeFlags("", k == 0, k == 1, k == 2, k == 3, k == 4, k == 5)
  }

  /** Each shorthand alone selects its own type; with two of them set the
      choice is refused. */
  lemma ShorthandSelects(k: nat, j: nat)
    requires k < 6 && j < 6 && k != j
    ensures InsightTypeOf(OnlyShorthand(k)) == Ok(ValidInsightTypes()[k])
    ensures InsightTypeOf(OnlyShorthand(k).(hypothesis := OnlyShorthand(k).hypothesis || j == 0,
                                            discovery := OnlyShorthand(k).discovery || j == 1,
                                            question := OnlyShorthand(k).question || j == 2,
                                            feedback := OnlyShorthand(k).feedback || j == 3,
                                            pivot := OnlyShorthand(k).pivot || j == 4,
                                            decision := OnlyShorthand(k).decision || j == 5)) == Err(MultipleTypeFlags)
  {
  }

  /** `resolveThreadRef`: every reference is used as given. */
  function ResolveThreadRef(ref: string): (r: string)
    ensures r == ref
  {
    if HasPrefix(ref, "thr-") then ref else ref
  }

  /** The checks made before the store is opened: the type, then the
      `--timestamp` value (absent, or already parsed, since `parseTimestamp`
      is not part of this model). */
  function Prechecked(f: TypeFlags, timestampArg: Option<Result<Time>>): Result<(string, Time)> {
    match InsightTypeOf(f)
    case Err(e) => Err(e)
    case Ok(kind) =>
      match timestampArg
      case None => Ok((kind, ZeroTime))
      case Some(Err(e)) => Err(Wrapped("invalid timestamp", e))
      case Some(Ok(ts)) => Ok((kind, ts))
  }

  /** The author flag, when given, names the insight's author and creator. */
  function WithAuthor(ins: Insight, author: string): Insight {
    if author != "" then ins.(authorId := author, createdBy := author) else ins
  }

  /** The insight `capture` builds before the store is opened. */
  function BuiltInsight(content: string, kind: string, timestamp: Time, threadRef: string,
                        endorsedBy: seq<string>, now: Time, rnd: RandomWord): Insight
  {
    var base := if timestamp != ZeroTime then NewInsightWithTimestamp(content, kind, timestamp, now, rnd)
                else NewInsight(content, kind, now, rnd);
    var withThread := if threadRef != "" then base.(threadId := ResolveThreadRef(threadRef)) else base;
    if |endorsedBy| > 0 then withThread.(endorsedBy := endorsedBy) else withThread
  }

  /** The insight `capture` saves. */
  function CapturedInsight(content: string, kind: string, timestamp: Time, threadRef: string,
                           endorsedBy: seq<string>, author: string, now: Time, rnd: RandomWord): Insight
  {
    WithAuthor(BuiltInsight(content, kind, timestamp, threadRef, endorsedBy, now, rnd), author)
  }

  /** The saved insight carries the given content, type, thread, endorsers
      and author (the author also as its creator); it happened at the
      given time, or now when none was given, and was recorded now. */
  lemma CapturedFields(content: string, kind: string, timestamp: Time, threadRef: string,
                       endorsedBy: seq<string>, author: string, now: Time, rnd: RandomWord)
    ensures var ins := CapturedInsight(content, kind, timestamp, threadRef, endorsedBy, author, now, rnd);
      HasPrefix(ins.id, "ins-") && ins.content == content && ins.kind == kind &&
      ins.timestamp == (if timestamp != ZeroTime then timestamp else now) && ins.createdAt == now &&
      ins.threadId == threadRef && ins.endorsedBy == endorsedBy &&
      ins.authorId == author && ins.createdBy == author &&
      ins.confidence == ConfidenceHuman && ins.source.kind == "human"
  {
  }

  /** The saving half of `capture`: opens the store, stamps the author and
      saves the insight. */
  method SaveCaptured(session: Session, insight: Insight, author: string) returns (r: Result<Insight>)
    requires session.Valid()
    modifies session, session.db, session.Held()
    ensures old(session.OpenError()).Some? ==>
      r == Err(old(session.OpenError()).value) && session.Finished(old(session.Current()), old(session.SchemaAfterOpen()))
    ensures old(session.OpenError()).None? ==>
      var ins := WithAuthor(insight, author);
      match InsertInsightIn(old(session.Current()), ins)
      case Ok(after) => r == Ok(ins) && session.Finished(after, old(session.SchemaAfterOpen()))
      case Err(e) => r == Err(Wrapped("failed to save insight", e)) && session.Finished(old(session.Current()), old(session.SchemaAfterOpen()))
  {
    ghost var t := session.Current();
    var s := session.GetStore();
    if s.Err? {
      return Err(s.error);
    }
    var st := s.value;
    assert st.Snapshot() == t;
    var ins := insight;
    if author != "" {
      ins := ins.(authorId := author, createdBy := author);
    }
    var err := st.CreateInsight(ins);
    session.CloseStore();
    if err.Some? {
      return Err(Wrapped("failed to save insight", err.value));
    }
    return Ok(ins);
  }

  /** `capture`'s run. */
  method RunCapture(session: Session, content: string, f: TypeFlags, timestampArg: Option<Result<Time>>,
                    threadRef: string, endorsedBy: seq<string>, author: string, now: Time, rnd: RandomWord)
    returns (r: Result<Insight>)
    requires session.Valid()
    modifies session, session.db, session.Held()
    ensures Prechecked(f, timestampArg).Err? ==>
      r == Err(Prechecked(f, timestampArg).error) && unchanged(session, session.db) && unchanged(session.Held()) && session.Valid()
    ensures Prechecked(f, timestampArg).Ok? && old(session.OpenError()).Some? ==>
      r == Err(old(session.OpenError()).value) && session.Finished(old(session.Current()), old(session.SchemaAfterOpen()))
    ensures Prechecked(f, timestampArg).Ok? && old(session.OpenError()).None? ==>
      var (kind, ts) := Prechecked(f, timestampArg).value;
      var ins := CapturedInsight(content, kind, ts, threadRef, endorsedBy, author, now, rnd);
      match InsertInsightIn(old(session.Current()), ins)
      case Ok(after) => r == Ok(ins) && session.Finished(after, old(session.SchemaAfterOpen()))
      case Err(e) => r == Err(Wrapped("failed to save insight", e)) && session.Finished(old(session.Current()), old(session.SchemaAfterOpen()))
  {
    var pre := Precheck(f, timestampArg);
    if pre.Err? {
      return Err(pre.error);
    }
    var (kind, timestamp) := pre.value;
    var insight := BuildInsight(content, kind, timestamp, threadRef, endorsedBy, now, rnd);
    r := SaveCaptured(session, insight, author);
  }

  /** The type and `--timestamp` checks of `capture`. */
  method Precheck(f: TypeFlags, timestampArg: Option<Result<Time>>) returns (r: Result<(string, Time)>)
    ensures r == Prechecked(f, timestampArg)
    ensures r.Ok? ==> IsValidType(r.value.0)
  {
    var kind := DetermineInsightType(f);
    if kind.Err? {
      return Err(kind.error);
    }
    var timestamp := ZeroTime;
    if timestampArg.Some? {
      if timestampArg.value.Err? {
        return Err(Wrapped("invalid timestamp", timestampArg.value.error));
      }
      timestamp := timestampArg.value.value;
    }
    return Ok((kind.value, timestamp));
  }

  /** The insight `capture` builds from its flags. */
  method BuildInsight(content: string, kind: string, timestamp: Time, threadRef: string,
                      endorsedBy: seq<string>, now: Time, rnd: RandomWord) returns (insight: Insight)
    ensures insight == BuiltInsight(content, kind, timestamp, threadRef, endorsedBy, now, rnd)
  {
    if timestamp != ZeroTime {
      insight := NewInsightWithTimestamp(content, kind, timestamp, now, rnd);
    } else {
      insight := NewInsight(content, kind, now, rnd);
    }
    if threadRef != "" {
      insight := insight.(threadId := ResolveThreadRef(threadRef));
    }
    if |endorsedBy| > 0 {
      insight := insight.(endorsedBy := endorsedBy);
    }
  }
}
