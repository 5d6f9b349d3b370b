/** The two bounded queues of an exposure never outgrow their capacity, whoever publishes and offers at once. */
module ExposureBuffers {
  import opened ExposureCore
  import opened ExposureThreads

  ghost predicate Fits(cfg: Config, g: Shared) {
    |g.updates.items| <= UpdatesCapacity(cfg) && |g.conns.queue| <= AcceptCapacity(cfg)
  }

  lemma PublishFits(u: Updates, capacity: nat, p: Publishing)
    requires |u.items| <= capacity
    ensures |PublishStep(u, capacity, p).0.items| <= capacity
  {
  }

  lemma ExhaustFits(core: Core, c: Conns, e: Exhausting)
    ensures |ExhaustStep(core, c, e).1.queue| <= |c.queue|
  {
  }

  lemma MainFits(cfg: Config, url: string, g: Shared, s: Sup, g': Shared, s': Sup)
    requires Fits(cfg, g) && MainStep(cfg, url, g, s, g', s')
    ensures Fits(cfg, g')
  {
    if s.main.SupPublish? {
      PublishFits(g.updates, UpdatesCapacity(cfg), s.main.p);
    } else if s.main.SupExhaust? {
      ExhaustFits(g.core, g.conns, s.main.e);
    }
    hide PublishStep, ExhaustStep, MarkFailed, CanMark;
  }

  lemma CallbackFits(cfg: Config, url: string, g: Shared, s: Sup, g': Shared, s': Sup)
    requires Fits(cfg, g) && (ReadyStep(cfg, url, g, s, g', s') || DatagramStep(cfg, url, g, s, g', s'))
    ensures Fits(cfg, g')
  {
    if s.ready.Some? {
      PublishFits(g.updates, UpdatesCapacity(cfg), s.ready.value);
    }
    if s.datagram.Some? {
      PublishFits(g.updates, UpdatesCapacity(cfg), s.datagram.value);
    }
    hide PublishStep, MarkReady, MarkDatagramReady;
  }

  lemma BuilderFits(cfg: Config, w: World, w': World)
    requires Fits(cfg, w.shared) && BuilderStep(cfg, w, w')
    ensures Fits(cfg, w'.shared)
  {
    if w.builder.BuildPublish? {
      PublishFits(w.shared.updates, UpdatesCapacity(cfg), w.builder.p);
    }
    hide PublishStep, AddRelay, CanAdd;
  }

  lemma DiscFits(cfg: Config, w: World, w': World)
    requires Fits(cfg, w.shared) && DiscStep(cfg, w, w')
    ensures Fits(cfg, w'.shared)
  {
    if w.disc.DiscPublish? {
      PublishFits(w.shared.updates, UpdatesCapacity(cfg), w.disc.p);
    } else if w.disc.DiscExhaust? {
      ExhaustFits(w.shared.core, w.shared.conns, w.disc.e);
    }
    hide PublishStep, ExhaustStep, AddRelay, CanAdd;
  }

  lemma CallerFits(cfg: Config, w: World, id: nat, g': Shared, p': CallerPc)
    requires Fits(cfg, w.shared) && id in w.callers
    requires AcceptStep(w.shared, w.callers[id], g', p') || WaitStep(w.shared, w.callers[id], g', p') || CloseStep(w, id, g', p')
    ensures Fits(cfg, g')
  {
    hide AllFailed, SomeReady, AllSupervisorsDone;
  }

  lemma NextFits(cfg: Config, w: World, a: Action, w': World)
    requires Fits(cfg, w.shared) && Next(cfg, w, a, w')
    ensures Fits(cfg, w'.shared)
  {
    match a
    case BuilderMove =>
      BuilderFits(cfg, w, w');
      hide BuilderStep;
    case DiscMove =>
      DiscFits(cfg, w, w');
      hide DiscStep;
    case SupMove(url) =>
      if MainStep(cfg, url, w.shared, w.sups[url], w'.shared, w'.sups[url]) {
        MainFits(cfg, url, w.shared, w.sups[url], w'.shared, w'.sups[url]);
      } else {
        CallbackFits(cfg, url, w.shared, w.sups[url], w'.shared, w'.sups[url]);
      }
      hide MainStep, ReadyStep, DatagramStep;
    case CallerMove(id) =>
      CallerFits(cfg, w, id, w'.shared, w'.callers[id]);
      hide AcceptStep, WaitStep, CloseStep;
    case _ =>
  }

  // ----- main result

  /** Publishing never blocks and offering never overfills: both queues stay within their capacity on every run. */
  lemma {:induction false} BuffersStayWithinCapacity(cfg: Config, ws: seq<World>, actions: seq<Action>, i: nat)
    requires IsRun(cfg, ws, actions) && i < |ws|
    ensures |ws[i].shared.updates.items| <= 4 * (|cfg.relays| + cfg.maxDiscovered)
    ensures |ws[i].shared.conns.queue| <= 2 * (|cfg.relays| + cfg.maxDiscovered)
  {
    if i > 0 {
      BuffersStayWithinCapacity(cfg, ws, actions, i - 1);
      NextFits(cfg, ws[i - 1], actions[i - 1], ws[i]);
      hide Next;
    }
  }
}
