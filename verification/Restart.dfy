/** What a daemon knows again after it was stopped, at any point, and started on the file it left. */
module Restart {
  import opened Types
  import opened Config
  import opened EngineAgent
  import opened Daemon
  import Devices
  import Engines
  import opened Runs
  import opened Server

  /** Language and option defaults are the same, and so are the persisted values unless the engine is gone. */
  ghost predicate KnowsAgain(a: Agent, b: Agent, found: seq<EngineInfo>) {
    && b.lang == a.lang
    && b.opts.prof.byDefault == a.opts.prof.byDefault
    && b.opts.punc.byDefault == a.opts.punc.byDefault
    && b.opts.sil.byDefault == a.opts.sil.byDefault
    && (a.conf.engineId.Some? && Begins(found, a.conf.engineId.value) ==> b.conf == a.conf)
  }

  lemma BootKnows(a: Agent, env: Env)
    requires AgentOk(a)
    ensures KnowsAgain(a, Boot(a.conf, env).agent, env.found)
  {
    hide SetCurrent;
    var b := UpdateList(Initial(a.conf), env.found).0;
    if env.found != [] {
      SelectionKnows(b, a.conf.engineId.value);
      SelectionKnows(b, env.found[0].uuid);
    }
  }

  /** Choosing an engine changes neither language nor defaults nor what is persisted. */
  lemma SelectionKnows(a: Agent, id: string)
    ensures var b := SetCurrent(a, id).0;
      && b.lang == a.lang && b.conf == a.conf && b.opts.prof.byDefault == a.opts.prof.byDefault
      && b.opts.punc.byDefault == a.opts.punc.byDefault && b.opts.sil.byDefault == a.opts.sil.byDefault
  {
  }

  /** The file that any run leaves behind, once words and numbers stand in it, brings language, defaults and
      persisted values back. */
  lemma RestartKeeps(r: Run, conf: Conf, env: Env, i: nat, env': Env)
    requires IsRun(r, conf, env) && i < |r.states| && Printable(r.states[i].agent.conf)
    ensures var a := r.states[i].agent; var c := Parse(INITIAL, Print(a.conf)).0;
      && c == a.conf && c.engineId.Some? && c.language.Some?
      && KnowsAgain(a, Boot(c, env').agent, env'.found)
  {
    hide IsRun, Boot, Parse, Print, KnowsAgain;
    AlwaysExclusive(r, conf, env, i);
    PrintedComesBack(r.states[i].agent.conf);
    BootKnows(r.states[i].agent, env');
  }

  /** The same engine is current again, if it is still there and no listed id begins another. */
  lemma EngineComesBack(a: Agent, env: Env)
    requires AgentOk(a) && Engines.Named(a) && a.uuid.Some? && PrefixFree(env.found) && Listed(env.found, a.uuid.value)
    ensures Boot(a.conf, env).hasEngine && Boot(a.conf, env).agent.uuid == a.uuid
  {
    var id := a.uuid.value;
    var j :| 0 <= j < |env.found| && env.found[j].uuid == id;
    var i := FirstExtending(env.found, id);
    assert env.found[j].uuid <= id && id <= env.found[j].uuid;
    assert Begins(env.found, id);
    PrefixFreePair(env.found, j, i);
  }

  lemma RestartFindsEngine(r: Run, conf: Conf, env: Env, i: nat, env': Env)
    requires IsRun(r, conf, env) && i < |r.states| && Printable(r.states[i].agent.conf) && PrefixFree(env.found)
    requires forall j :: 0 <= j < i ==> Engines.NameRely(r.states[j], r.events[j], r.envs[j])
    requires r.states[i].agent.uuid.Some? && PrefixFree(env'.found) && Listed(env'.found, r.states[i].agent.uuid.value)
    ensures var a := r.states[i].agent; var c := Parse(INITIAL, Print(a.conf)).0;
      c == a.conf && c.engineId.Some? && c.language.Some? && Boot(c, env').agent.uuid == a.uuid
  {
    hide IsRun, Boot, Parse, Print, PrefixFree, Engines.NameRely, Engines.Named;
    AlwaysExclusive(r, conf, env, i);
    AlwaysNamed(r, conf, env, i);
    PrintedComesBack(r.states[i].agent.conf);
    EngineComesBack(r.states[i].agent, env');
  }

  /** The running daemon: what is on its disk at any time would bring it back, if it can write there. */
  lemma DaemonRestarts(server: SttServer, env: Env)
    requires server.Valid() && Devices.Sound(server.View())
    requires server.agent.config.writable && Printable(server.View().agent.conf)
    ensures server.agent.config.Found().Some?
    ensures var a := server.View().agent; var c := Parse(INITIAL, server.agent.config.Found().value).0;
      && c == a.conf && c.engineId.Some? && c.language.Some?
      && KnowsAgain(a, Boot(c, env).agent, env.found)
  {
    hide Boot, Parse, KnowsAgain;
    BootKnows(server.View().agent, env);
  }
}
