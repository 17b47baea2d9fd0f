/** `bdc thread new|show|list|close`: creating, reading, listing and
    closing threads. */
module Threads {
  import opened Wrappers
  import opened Text
  import opened Types
  import opened Storage
  import opened Root

  // ----- the --status flag

  /** The value the `--status` variable holds when the flag is not given,
      as written: `list` and `close` register the one variable `threadStatus`,
      and `close`, registered last, leaves its default `concluded` in it. */
  const SharedStatusDefault: string := Concluded

  /** The variable's value as written: the flag's value, or the shared
      default. */
  function StatusFlagAsWritten(flag: Option<string>): string {
    if flag.Some? then flag.value else SharedStatusDefault
  }

  /** The subcommands that read `--status`. */
  datatype StatusCommand = ListCommand | CloseCommand

  /** The variable's value with each subcommand's own default: `list`
      declares "" (every status), `close` declares `concluded`. */
  function StatusFlag(cmd: StatusCommand, flag: Option<string>): (r: string)
    ensures flag.Some? ==> r == flag.value
    ensures flag.None? && cmd == ListCommand ==> r == ""
    ensures flag.None? && cmd == CloseCommand ==> r == Concluded
  {
    if flag.Some? then flag.value
    else match cmd
      case ListCommand => ""
      case CloseCommand => Concluded
  }

  /** As written, `thread list` without `--status` hides every thread that
      is not concluded: one active thread is stored and none is listed. */
  lemma ListDefaultHidesActive(t: Tables, th: Thread)
    requires WellFormed(t) && t.threads == map[th.id := th] && t.threadOrder == [th.id] && th.status == Active
    ensures ListThreadsIn(t, StatusFlagAsWritten(None)) == []
    ensures th in ListThreadsIn(t, StatusFlag(ListCommand, None))
  {
    ListThreadsMembers(t, "", th);
    var r := ListThreadsIn(t, Concluded);
    if r != [] {
      ListThreadsMembers(t, Concluded, r[0]);
      assert false;
    }
  }

  /** With each subcommand's own default, `thread list` without `--status`
      lists every stored thread, and `close` concludes. */
  lemma DefaultStatusAllThreads(t: Tables, x: Thread)
    requires WellFormed(t)
    ensures x in ListThreadsIn(t, StatusFlag(ListCommand, None)) <==> x.id in t.threads && t.threads[x.id] == x
    ensures CloseStatus(StatusFlag(CloseCommand, None)) == Ok(Concluded)
  {
    ListThreadsMembers(t, "", x);
  }

  // ----- thread new

  /** The saving half of `thread new`. */
  method RunThreadNew(session: Session, title: string, now: Time, rnd: RandomWord) returns (r: Result<Thread>)
    requires session.Valid()
    modifies session, session.db, session.Held()
    ensures old(session.OpenError()).Some? ==>
      r == Err(old(session.OpenError()).value) && session.Finished(old(session.Current()), old(session.SchemaAfterOpen()))
    ensures old(session.OpenError()).None? ==>
      var th := NewThread(title, now, rnd);
      match InsertThreadIn(old(session.Current()), th)
      case Ok(after) => r == Ok(th) && session.Finished(after, old(session.SchemaAfterOpen()))
      case Err(e) => r == Err(Wrapped("failed to save thread", e)) && session.Finished(old(session.Current()), old(session.SchemaAfterOpen()))
  {
    var thread := NewThread(title, now, rnd);
    ghost var t := session.Current();
    var s := session.GetStore();
    if s.Err? {
      return Err(s.error);
    }
    var st := s.value;
    assert st.Snapshot() == t;
    var err := st.CreateThread(thread);
    session.CloseStore();
    if err.Some? {
      return Err(Wrapped("failed to save thread", err.value));
    }
    return Ok(thread);
  }

  /** A new thread is saved unless its identifier is taken; it is then read
      back as an active thread with the given title, listed among the
      active threads, and every other thread is as it was. */
  lemma NewThreadStored(t: Tables, title: string, now: Time, rnd: RandomWord)
    requires WellFormed(t)
    ensures var th := NewThread(title, now, rnd);
      (InsertThreadIn(t, th).Err? <==> th.id in t.threads) &&
      (InsertThreadIn(t, th).Ok? ==>
        var after := InsertThreadIn(t, th).value;
        ThreadIn(after, th.id) == Ok(th) && th.title == title && th.status == Active &&
        (forall id :: id in t.threads ==> ThreadIn(after, id) == ThreadIn(t, id)))
  {
  }

  // ----- thread show

  /** One line of the thread's insight list: identifier, type and the
      content cut to 60 characters. */
  datatype ThreadInsightLine = ThreadInsightLine(id: string, kind: string, text: string)

  /** The details `thread show` prints. */
  datatype ThreadDetails = ThreadDetails(thread: Thread, insights: seq<ThreadInsightLine>)

  function ThreadInsightLineOf(ins: Insight): ThreadInsightLine {
    ThreadInsightLine(ins.id, ins.kind, Truncate(ins.content, 60))
  }

  /** The lines of `insights`, in order. */
  function ThreadInsightLines(insights: seq<Insight>): (r: seq<ThreadInsightLine>)
    ensures |r| == |insights|
    ensures forall k :: 0 <= k < |r| ==> r[k] == ThreadInsightLineOf(insights[k])
  {
    if insights == [] then [] else ThreadInsightLines(insights[..|insights| - 1]) + [ThreadInsightLineOf(insights[|insights| - 1])]
  }

  /** The printing loop of `thread show`. */
  method PrintThreadInsights(insights: seq<Insight>) returns (lines: seq<ThreadInsightLine>)
    ensures lines == ThreadInsightLines(insights)
  {
    lines := [];
    var i := 0;
    while i < |insights|
      invariant 0 <= i <= |insights|
      invariant lines == ThreadInsightLines(insights[..i])
    {
      assert insights[..i + 1][..i] == insights[..i];
      lines := lines + [ThreadInsightLineOf(insights[i])];
      i := i + 1;
    }
    assert insights[..i] == insights;
  }

  ghost function ThreadShowOf(t: Tables, id: string): Result<ThreadDetails>
    requires WellFormed(t)
  {
    match ThreadIn(t, id)
    case Err(e) => Err(Wrapped("failed to get thread", e))
    case Ok(th) => Ok(ThreadDetails(th, ThreadInsightLines(ListInsightsIn(t, id, "", ZeroTime))))
  }

  /** `thread show` fails exactly for an unknown thread; otherwise it shows
      the stored thread. */
  lemma ThreadShowFound(t: Tables, id: string)
    requires WellFormed(t)
    ensures ThreadShowOf(t, id).Err? <==> id !in t.threads
    ensures ThreadShowOf(t, id).Ok? ==> ThreadShowOf(t, id).value.thread == t.threads[id] && t.threads[id].id == id
  {
  }

  /** Each stored insight of the thread has its line in `thread show`. */
  lemma ThreadShowLists(t: Tables, id: string, x: Insight)
    requires WellFormed(t) && ThreadShowOf(t, id).Ok?
    requires x in Insights(t) && (id == "" || x.threadId == id)
    ensures ThreadInsightLineOf(x) in ThreadShowOf(t, id).value.insights
  {
    var listed := ListInsightsIn(t, id, "", ZeroTime);
    ListInsightsMembers(t, id, "", ZeroTime, x);
    var k :| 0 <= k < |listed| && listed[k] == x;
    assert ThreadInsightLines(listed)[k] == ThreadInsightLineOf(x);
  }

  /** Each line of `thread show` is that of a stored insight of the
      thread. */
  lemma ThreadShowLinesStored(t: Tables, id: string, line: ThreadInsightLine)
    requires WellFormed(t) && ThreadShowOf(t, id).Ok?
    requires line in ThreadShowOf(t, id).value.insights
    ensures exists y :: y in Insights(t) && (id == "" || y.threadId == id) && line == ThreadInsightLineOf(y)
  {
    var listed := ListInsightsIn(t, id, "", ZeroTime);
    var lines := ThreadInsightLines(listed);
    var k :| 0 <= k < |lines| && lines[k] == line;
    ListInsightsMembers(t, id, "", ZeroTime, listed[k]);
  }

  /** `thread show`. */
  method RunThreadShow(session: Session, id: string) returns (r: Result<ThreadDetails>)
    requires session.Valid()
    modifies session, session.db, session.Held()
    ensures session.Finished(old(session.Current()), old(session.SchemaAfterOpen()))
    ensures old(session.OpenError()).Some? ==> r == Err(old(session.OpenError()).value)
    ensures old(session.OpenError()).None? ==> r == ThreadShowOf(old(session.Current()), id)
  {
    ghost var t0 := session.Current();
    var s := session.GetStore();
    if s.Err? {
      return Err(s.error);
    }
    var st := s.value;
    var t := st.Snapshot();
    assert t == t0 && WellFormed(t);
    r := ShowThread(st, id);
    session.CloseStore();
  }

  /** `showThread`: the thread and its insights, newest first. */
  method ShowThread(st: Store, id: string) returns (r: Result<ThreadDetails>)
    requires st.Valid()
    ensures r == ThreadShowOf(st.Snapshot(), id)
  {
    var thread := st.GetThread(id);
    if thread.Err? {
      return Err(Wrapped("failed to get thread", thread.error));
    }
    var insights := st.ListInsights(id, "", ZeroTime);
    var lines := PrintThreadInsights(insights);
    return Ok(ThreadDetails(thread.value, lines));
  }

  // ----- thread list

  /** `thread list`: the threads of the status the flag gives (every
      status when it gives none), most recently updated first. */
  method RunThreadList(session: Session, flag: Option<string>) returns (r: Result<seq<Thread>>)
    requires session.Valid()
    modifies session, session.db, session.Held()
    ensures session.Finished(old(session.Current()), old(session.SchemaAfterOpen()))
    ensures old(session.OpenError()).Some? ==> r == Err(old(session.OpenError()).value)
    ensures old(session.OpenError()).None? ==> r == Ok(ListThreadsIn(old(session.Current()), StatusFlag(ListCommand, flag)))
  {
    ghost var t0 := session.Current();
    var s := session.GetStore();
    if s.Err? {
      return Err(s.error);
    }
    var st := s.value;
    assert st.Snapshot() == t0;
    var status := StatusFlag(ListCommand, flag);
    var threads := st.ListThreads(status);
    session.CloseStore();
    return Ok(threads);
  }

  // ----- thread close

  /** The status `close` sets: `concluded` unless the flag says otherwise,
      and only `concluded` or `abandoned`. */
  function CloseStatus(statusValue: string): (r: Result<string>)
    ensures r.Ok? ==> r.value == Concluded || r.value == Abandoned
    ensures r.Err? <==> statusValue != "" && statusValue != Concluded && statusValue != Abandoned
  {
    if statusValue == "" then Ok(Concluded)
    else if statusValue != Concluded && statusValue != Abandoned then Err(InvalidStatus(statusValue))
    else Ok(statusValue)
  }

  /** `thread close` on tables `t`: the stored thread with the new status
      and update time. */
  function ClosedIn(t: Tables, id: string, statusValue: string, now: Time): Result<Tables> {
    match ThreadIn(t, id)
    case Err(e) => Err(Wrapped("failed to get thread", e))
    case Ok(th) =>
      match CloseStatus(statusValue)
      case Err(e) => Err(e)
      case Ok(status) =>
        match UpdateThreadIn(t, th.(status := status, updatedAt := now))
        case Err(e) => Err(Wrapped("failed to update thread status", e))
        case Ok(after) => Ok(after)
  }

  /** Closing succeeds exactly for a stored thread and an allowed status; it
      changes that thread's status and update time and nothing else. */
  lemma ClosedThread(t: Tables, id: string, statusValue: string, now: Time)
    requires WellFormed(t)
    ensures ClosedIn(t, id, statusValue, now).Ok? <==> id in t.threads && CloseStatus(statusValue).Ok?
    ensures ClosedIn(t, id, statusValue, now).Ok? ==>
      var after := ClosedIn(t, id, statusValue, now).value;
      after == t.(threads := t.threads[id := t.threads[id].(status := CloseStatus(statusValue).value, updatedAt := now)]) &&
      (after.threads[id].status == Concluded || after.threads[id].status == Abandoned)
  {
    if id in t.threads && CloseStatus(statusValue).Ok? {
      var th := t.threads[id];
      assert th.(status := CloseStatus(statusValue).value, updatedAt := now).id == id;
    }
  }

  /** `thread close`. */
  method RunThreadClose(session: Session, id: string, flag: Option<string>, now: Time) returns (r: Result<string>)
    requires session.Valid()
    modifies session, session.db, session.Held()
    ensures old(session.OpenError()).Some? ==>
      r == Err(old(session.OpenError()).value) && session.Finished(old(session.Current()), old(session.SchemaAfterOpen()))
    ensures old(session.OpenError()).None? ==>
      var statusValue := StatusFlag(CloseCommand, flag);
      match ClosedIn(old(session.Current()), id, statusValue, now)
      case Ok(after) => r == CloseStatus(statusValue) && session.Finished(after, old(session.SchemaAfterOpen()))
      case Err(e) => r == Err(e) && session.Finished(old(session.Current()), old(session.SchemaAfterOpen()))
  {
    ghost var t := session.Current();
    var s := session.GetStore();
    if s.Err? {
      return Err(s.error);
    }
    var st := s.value;
    assert st.Snapshot() == t;
    var thread := st.GetThread(id);
    if thread.Err? {
      session.CloseStore();
      return Err(Wrapped("failed to get thread", thread.error));
    }
    var statusValue := StatusFlag(CloseCommand, flag);
    var newStatus := Concluded;
    if statusValue != "" {
      newStatus := statusValue;
      if newStatus != Concluded && newStatus != Abandoned {
        session.CloseStore();
        return Err(InvalidStatus(statusValue));
      }
    }
    var updated := thread.value.(status := newStatus, updatedAt := now);
    var err := st.UpdateThread(updated);
    session.CloseStore();
    if err.Some? {
      // the thread was just read, so the update finds it
      assert false;
    }
    return Ok(newStatus);
  }
}
