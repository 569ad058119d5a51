/**
  Pausing a client freezes what it shows: until it is resumed, its replica stays as it was in every run.
*/
module SyncPause {
  import opened Collection
  import opened Protocol
  import opened SyncSystem

  predicate Frozen(s: System, i: nat, replica: Connections.Storage) {
    i < |s.links| && s.links[i].client.isPaused && s.links[i].client.replica == replica
  }

  lemma LinkStaysFrozen(l: Link, step: Step)
    requires l.client.isPaused && !(step.Pause? && !step.paused)
    ensures LinkStep(l, step).client.isPaused && LinkStep(l, step).client.replica == l.client.replica
  {
    hide SessionDrop, SessionDisconnect;
    match step
    case LoadWriter(_) => SendingKeepsClient(l);
    case SendPart(_) => SendingKeepsClient(l);
    case SendRest(_) => SendingKeepsClient(l);
    case _ =>
  }

  lemma SendingKeepsClient(l: Link)
    ensures LoadLink(l).client == SendPartLink(l).client == SendRestLink(l).client == l.client
  {
  }

  lemma DeliveryStaysFrozen(l: Link, history: seq<Connections.Table>, available: bool)
    requires CanDeliver(l) && l.client.isPaused
    ensures var c := DeliverLink(l, history, available).client; c.isPaused && c.replica == l.client.replica
  {
    PausedReads(l.client, l.wire[0]);
  }

  lemma ServedStaysFrozen(l: Link, available: bool, ser: Serializer, now: nat)
    requires CanServe(l) && l.client.isPaused
    ensures var c := ServeLink(l, available, ser, now).0.client; c.isPaused && c.replica == l.client.replica
  {
    hide ServerOnMessage, SessionDrop;
  }

  lemma ServeStaysFrozen(s: System, step: Step, i: nat, replica: Connections.Storage)
    requires Frozen(s, i, replica) && step.Serve?
    ensures Frozen(After(s, step), i, replica)
  {
    if step.i == i && CanServe(s.links[i]) && |s.history| > 0 {
      ServedStaysFrozen(s.links[i], s.available, s.ser, |s.history| - 1);
    }
    hide ServeLink, CanServe;
  }

  lemma ServerStaysFrozen(s: System, step: Step, i: nat, replica: Connections.Storage)
    requires Frozen(s, i, replica) && (step.Connect? || step.Kernel? || step.RequireRefill? || step.PauseCollector?)
    ensures Frozen(After(s, step), i, replica)
  {
    hide KernelEvent, NewLink, CanConnect;
  }

  lemma TickStaysFrozen(s: System, step: Step, i: nat, replica: Connections.Storage)
    requires Frozen(s, i, replica) && step.Tick?
    ensures Frozen(After(s, step), i, replica)
  {
    hide IsOrder, CollectedSerializer, BeforeTick, AfterTick, TickUpdate, TickDump;
  }

  lemma StaysFrozen(s: System, step: Step, i: nat, replica: Connections.Storage)
    requires Frozen(s, i, replica) && step != Pause(i, false)
    ensures Frozen(After(s, step), i, replica)
  {
    if step.Serve? {
      ServeStaysFrozen(s, step, i, replica);
    } else if step.Connect? || step.Kernel? || step.RequireRefill? || step.PauseCollector? {
      ServerStaysFrozen(s, step, i, replica);
    } else if step.Tick? {
      TickStaysFrozen(s, step, i, replica);
    } else {
      hide DeliverLink, LinkStep;
      if step.i == i {
        if step.Deliver? {
          if CanDeliver(s.links[i]) { DeliveryStaysFrozen(s.links[i], s.history, s.available); }
        } else {
          LinkStaysFrozen(s.links[i], step);
        }
      }
    }
  }

  /** From a pause to the next resumption, through any steps of any client, the server and the kernel. */
  lemma {:induction false} PauseFreezes(s: System, i: nat, steps: seq<Step>)
    requires i < |s.links| && forall k :: 0 <= k < |steps| ==> steps[k] != Pause(i, false)
    ensures Frozen(Run(After(s, Pause(i, true)), steps), i, s.links[i].client.replica)
    decreases |steps|
  {
    if steps == [] {
      PauseTakesEffect(s.links[i].client, true);
    } else {
      PauseFreezes(s, i, steps[..|steps| - 1]);
      StaysFrozen(Run(After(s, Pause(i, true)), steps[..|steps| - 1]), steps[|steps| - 1], i, s.links[i].client.replica);
    }
  }
}
