/** What a process does in a run of many is what it does in conversation with its port. */
module Conversation {
  import opened Program
  import opened World
  import opened Transcripts
  import opened Ports

  /** What `p` asked and was answered in a run. */
  function LogOf(es: seq<Event>, p: Pid): Transcript {
    if es == [] then []
    else LogOf(Before(es), p) + if Last(es).Act? && Last(es).p == p then [Exchange(Last(es).op, Last(es).reply)] else []
  }

  lemma EventMovesItsProcess(cfg: Config, w: World, e: Event, p: Pid)
    requires Enabled(cfg, w, e) && p in w.procs
    ensures p in Next(cfg, w, e).procs
    ensures e.Act? && e.p == p ==>
            w.procs[p].pc != Exited && Next(cfg, w, e).procs[p] == Resume(cfg, w.procs[p], e.reply)
    ensures !(e.Act? && e.p == p) ==> Next(cfg, w, e).procs[p] == w.procs[p]
  {
    hide Resume, Effect, Answers, OpOf;
  }

  /** In every run each process is where its answers alone have taken it, and what it asked and
      was answered is what a port lets it ask and may answer. */
  lemma {:induction false} RunsAreConversations(cfg: Config, pids: set<Pid>, es: seq<Event>, p: Pid)
    requires Ran(cfg, pids, es) && p in pids
    ensures p in After(cfg, pids, es).procs
    ensures After(cfg, pids, es).procs[p] == Converse(cfg, LogOf(es, p))
    ensures forall i | 0 <= i < |es| && es[i].Act? && es[i].p == p ::
              var q := Converse(cfg, LogOf(es[..i], p));
              q.pc != Exited && es[i].op == OpOf(cfg, q.pc) && MayAnswer(es[i].op, es[i].reply)
    decreases |es|
  {
    hide Resume, Effect, Answers, OpOf, Enabled, Next, MayAnswer;
    if es != [] {
      var prior, e := Before(es), Last(es);
      RunsAreConversations(cfg, pids, prior, p);
      EventMovesItsProcess(cfg, After(cfg, pids, prior), e, p);
      var log := LogOf(es, p);
      if e.Act? && e.p == p {
        assert log[..|log| - 1] == LogOf(prior, p);
        PortsAllow(cfg, After(cfg, pids, prior), e);
      } else {
        assert log == LogOf(prior, p);
      }
      forall i | 0 <= i < |es| && es[i].Act? && es[i].p == p
        ensures var q := Converse(cfg, LogOf(es[..i], p));
                q.pc != Exited && es[i].op == OpOf(cfg, q.pc) && MayAnswer(es[i].op, es[i].reply)
      {
        if i < |prior| {
          assert prior[..i] == es[..i];
        } else {
          assert es[..i] == prior;
        }
      }
    }
  }

  lemma PortsAllow(cfg: Config, w: World, e: Event)
    requires e.Act? && Enabled(cfg, w, e)
    ensures w.procs[e.p].pc != Exited && e.op == OpOf(cfg, w.procs[e.p].pc) && MayAnswer(e.op, e.reply)
  {
    hide Answers, OpOf, Resume;
    if !e.reply.Failed? {
      AnswersFit(cfg, w, e.op, e.reply);
    }
  }

  lemma AnswersFit(cfg: Config, w: World, op: Op, reply: Reply)
    requires Answers(cfg, w, op, reply)
    ensures Fits(op, reply)
  {
  }
}
