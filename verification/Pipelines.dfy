/** The engine and its outbox together: the outbox grows as the ledger's history does, whatever drains do meanwhile. */
module Pipelines {
  import opened Prelude
  import opened HashChain
  import opened Ledgers
  import opened RunLoop
  import opened Steps
  import opened Projection
  import opened Relay
  import opened Outbox

  /** A ledger's run and the sender on whose behalf its events go out. */
  datatype Feed = Feed(h: Hash, sender: Sender, host: Host, m: Manifest, w: World, cfg: Config)

  /** The outbound events after some operations on the ledger. */
  ghost function EventsAfter(f: Feed, ops: seq<Op>): seq<OutEvent> {
    Projected(f.h, f.sender, History(f.host, f.m, f.w, f.cfg, ops).l)
  }

  /** No two records of the log after these operations are confused. */
  ghost predicate Unconfused(f: Feed, ops: seq<Op>) {
    var l := History(f.host, f.m, f.w, f.cfg, ops).l;
    NoneConfused(f.h, l.tasks, f.sender, Seal(f.h, l.events))
  }

  ghost predicate FeedOk(f: Feed) { ClockOk(f.host) && IsDigest(f.h) }

  lemma UnconfusedIffDistinct(f: Feed, ops: seq<Op>)
    requires FeedOk(f)
    ensures Unconfused(f, ops) <==> NoDuplicates(Keys(EventsAfter(f, ops)))
  {
    hide History, Project, NoneConfused, NoDuplicates, Seal, Verified;
    var l := History(f.host, f.m, f.w, f.cfg, ops).l;
    SealVerifies(f.h, l.events);
    KeysAreDistinct(f.h, l.tasks, f.sender, Seal(f.h, l.events));
  }

  lemma FewerAreDistinct(a: seq<OutEvent>, b: seq<OutEvent>)
    requires a <= b && NoDuplicates(Keys(b))
    ensures NoDuplicates(Keys(a))
  {
    forall i | 0 <= i < |a| ensures Keys(a)[i] == Keys(b)[i] {}
  }

  lemma EventsOnlyGrow(f: Feed, ops: seq<Op>, more: seq<Op>)
    requires FeedOk(f)
    ensures EventsAfter(f, ops) <= EventsAfter(f, ops + more)
  {
    hide History, Projected;
    ProjectionIsStable(f.h, f.sender, f.host, f.m, f.w, f.cfg, ops, more);
  }

  /**
   * A growth step of the outbox is what operations on the ledger do: further operations append news to the events,
   * and the step with these news is enabled if and only if the later log has no confused records.
   */
  lemma HistoryGrows(f: Feed, ops: seq<Op>, more: seq<Op>, s: System) returns (news: seq<OutEvent>)
    requires FeedOk(f) && s.events == EventsAfter(f, ops)
    ensures s.events + news == EventsAfter(f, ops + more)
    ensures Enabled(s, Grow(news)) <==> Unconfused(f, ops + more)
    ensures Unconfused(f, ops + more) ==> Do(s, Grow(news)) == s.(events := EventsAfter(f, ops + more))
  {
    hide EventsAfter, Unconfused, NoDuplicates;
    EventsOnlyGrow(f, ops, more);
    UnconfusedIffDistinct(f, ops + more);
    news := EventsAfter(f, ops + more)[|s.events|..];
    assert s.events + news == EventsAfter(f, ops + more);
  }

  // ---- Joint runs ----------------------------------------------------------------------------------

  /** Either an operation on the ledger, or a step of the drains and sweeps on the outbox. */
  datatype Step = Operate(op: Op) | Relayed(act: Act)

  /** The operations so far, and the outbox. */
  datatype Pipeline = Pipeline(ops: seq<Op>, outbox: System)

  ghost function Next(f: Feed, p: Pipeline, step: Step): Pipeline {
    match step
    case Operate(op) => Pipeline(p.ops + [op], p.outbox.(events := EventsAfter(f, p.ops + [op])))
    case Relayed(act) => if act.Grow? then p else p.(outbox := Do(p.outbox, act))
  }

  /** A fresh run, then any interleaving of operations and outbox steps. */
  ghost function Joint(f: Feed, steps: seq<Step>): Pipeline {
    if steps == [] then Pipeline([], START.(events := EventsAfter(f, [])))
    else Next(f, Joint(f, steps[..|steps| - 1]), steps[|steps| - 1])
  }

  lemma DoKeepsEvents(s: System, a: Act)
    requires !a.Grow?
    ensures Do(s, a).events == s.events
  {
    hide Enabled, WriteRow, OnReply, OnLook, OnWritten;
  }

  lemma OneMoreStep(acts: seq<Act>, a: Act)
    ensures After(START, acts + [a]) == Do(After(START, acts), a)
  {
    hide Do;
    assert (acts + [a])[..|acts|] == acts;
  }

  lemma FirstGrowth(f: Feed)
    requires FeedOk(f) && Unconfused(f, [])
    ensures After(START, [Grow(EventsAfter(f, []))]) == START.(events := EventsAfter(f, []))
  {
    hide Unconfused, EventsAfter, NoDuplicates;
    var all := EventsAfter(f, []);
    UnconfusedIffDistinct(f, []);
    OneMoreStep([], Grow(all));
    assert [] + [Grow(all)] == [Grow(all)] && [] + all == all;
  }

  /**
   * Engine and outbox together are a run of the outbox, at every moment with exactly the events projected from the
   * ledger as it stands, provided the last log has no confused records.
   */
  lemma {:induction false} JointIsARun(f: Feed, steps: seq<Step>) returns (acts: seq<Act>)
    requires FeedOk(f) && Unconfused(f, Joint(f, steps).ops)
    ensures Joint(f, steps).outbox == After(START, acts)
    ensures Joint(f, steps).outbox.events == EventsAfter(f, Joint(f, steps).ops)
  {
    hide FeedOk, Unconfused, EventsAfter, After, Do, NoDuplicates;
    if steps == [] {
      FirstGrowth(f);
      acts := [Grow(EventsAfter(f, []))];
    } else {
      var before, step := Joint(f, steps[..|steps| - 1]), steps[|steps| - 1];
      if step.Operate? {
        EventsOnlyGrow(f, before.ops, [step.op]);
        UnconfusedIffDistinct(f, before.ops + [step.op]);
        FewerAreDistinct(EventsAfter(f, before.ops), EventsAfter(f, before.ops + [step.op]));
        UnconfusedIffDistinct(f, before.ops);
      }
      acts := JointIsARun(f, steps[..|steps| - 1]);
      if step.Operate? {
        var news := HistoryGrows(f, before.ops, [step.op], before.outbox);
        OneMoreStep(acts, Grow(news));
        acts := acts + [Grow(news)];
      } else if !step.act.Grow? {
        DoKeepsEvents(before.outbox, step.act);
        OneMoreStep(acts, step.act);
        acts := acts + [step.act];
      }
    }
  }

  /** So at every moment the keys ever settled are those of a prefix of the events of the ledger as it stands. */
  lemma SettledOfLedger(f: Feed, steps: seq<Step>) returns (n: nat)
    requires FeedOk(f) && Unconfused(f, Joint(f, steps).ops)
    ensures var p := Joint(f, steps);
      var events := EventsAfter(f, p.ops);
      && n <= |events| && p.outbox.ever == KeySet(events[..n])
      && (n < |events| ==> events[n].Key() !in p.outbox.ever)
  {
    hide FeedOk, Unconfused, EventsAfter, After, Joint, KeySet;
    var acts := JointIsARun(f, steps);
    n := SettledIsPrefix(acts);
  }
}
