/** Preparing a line's credentials (src/fleet_graph/bus/line_registration.py) as atomic steps on
    files and on the bus, with a crash allowed between any two and other actors in between. */
module LineRegistration {
  import opened Text

  /** What whoami says of a token: its agent, and whether it may do more than a line should. */
  datatype Identity = Identity(agent: string, privileged: bool)

  /** The line's alias and the agent id derived from it. */
  datatype Config = Config(alias: string, derived: string)

  /** The alias's owner, the registered agents, the tokens the bus knows, the line's own token file
      and the bus token directory. */
  datatype World = World(
    owner: Option<string>,
    agents: set<string>,
    identities: map<string, Identity>,
    target: Option<string>,
    sources: map<string, string>)

  datatype Code =
    | InvalidAlias | AliasProtocolInvalid | TokenEmpty | ExistingAgentTokenUnavailable
    | RegistrationProtocolInvalid | RegisteredTokenUnavailable | TokenOwnerMismatch | PrivilegedTokenRefused
    | TokenStorageFailed | AliasOwnerChanged | BusRequestFailed | Ready

  /** Where the one call under the lock stands. */
  datatype Pc =
    | Start
    | Resolved(agent: string, absent: bool)
    | Registering(agent: string)
    | Holding(agent: string, absent: bool, token: string)
    | Verified(agent: string, absent: bool, token: string)
    | Written(agent: string, absent: bool, token: string)
    | Binding(agent: string)
    | Done(code: Code)

  datatype State = State(world: World, pc: Pc)

  /** The body of a registration answer. */
  datatype Reply = WithToken(token: string) | WithoutToken | Garbled | NoReply

  /** What the bus does with a registration: the token it issues, whether it also leaves a token
      file in its directory, and the answer that arrives. */
  datatype Registration = Registration(issued: string, filed: bool, reply: Reply)

  /** A write ends well, fails before the rename, or fails after it. */
  datatype Storage = Stored | Untouched | StoredButFailed

  /** A bus request ends well, is lost before it took effect, or its answer is lost. */
  datatype Wire = Answered | LostBefore | LostAfter

  datatype Act =
    | Resolve(wire: Wire)
    | Read
    | Register(registration: Registration)
    | Verify(wire: Wire)
    | Write(storage: Storage)
    | Bind(wire: Wire)
    | Confirm(wire: Wire)
    | Crash
    | OtherBinds(agent: string)
    | OtherRebinds(newOwner: Option<string>)
    | OtherIssues(token: string, identity: Identity)
    | OtherFiles(name: string, content: Option<string>)

  // ----- names and tokens ---------------------------------------------------

  predicate WordChar(c: char) { 'a' <= c <= 'z' || 'A' <= c <= 'Z' || '0' <= c <= '9' || c == '_' || c == '-' }

  predicate SafeName(s: string) { s != "" && WordChar(s[0]) && forall c :: c in s ==> WordChar(c) || c == '.' }

  /** The credential a token text stands for: white space around it does not count. */
  function Credential(text: string): string { Strip(text) }

  lemma WrittenCredential(token: string)
    ensures Credential(token + "\n") == Credential(token)
  {
    var left, right := StripBySplits(IsSpace, token);
    StripFacts(token);
    assert token + "\n" == left + Credential(token) + (right + "\n");
    StripPadded(left, Credential(token), right + "\n");
  }

  function IdentityOf(w: World, token: string): Option<Identity>
  {
    if Credential(token) in w.identities then Some(w.identities[Credential(token)]) else None
  }

  /** The token belongs to this agent and grants nothing beyond a line's own rights. */
  predicate OwnToken(w: World, token: string, agent: string)
  {
    IdentityOf(w, token) == Some(Identity(agent, false))
  }

  /** Alias and token name the same unprivileged agent. */
  predicate ReadyWorld(w: World)
  {
    w.owner.Some? && w.target.Some? && OwnToken(w, w.target.value, w.owner.value)
  }

  // ----- the steps ----------------------------------------------------------

  function TokenFile(name: string): string { name + ".token" }

  /** The bus directory's token for an agent, by the agent's name before the alias's. */
  function Candidate(w: World, config: Config, agent: string): Option<string>
  {
    if TokenFile(agent) in w.sources then Some(w.sources[TokenFile(agent)])
    else if TokenFile(config.alias) in w.sources then Some(w.sources[TokenFile(config.alias)])
    else None
  }

  function Available(w: World, config: Config, agent: string): Option<string>
  {
    if w.target.Some? then w.target else Candidate(w, config, agent)
  }

  function AfterResolve(config: Config, w: World, wire: Wire): Pc
  {
    if !wire.Answered? then Done(BusRequestFailed)
    else
      match w.owner
      case None => Resolved(config.derived, true)
      case Some(agent) => if SafeName(agent) then Resolved(agent, false) else Done(AliasProtocolInvalid)
  }

  function AfterRead(config: Config, w: World, agent: string, absent: bool): Pc
  {
    match Available(w, config, agent)
    case Some(content) => if Credential(content) == "" then Done(TokenEmpty) else Holding(agent, absent, Credential(content))
    case None => if absent then Registering(agent) else Done(ExistingAgentTokenUnavailable)
  }

  /** The bus registers an unknown agent once, under a token it has not issued before; a request
      it never saw is one that issues no such token. */
  function RegisteredWorld(w: World, agent: string, r: Registration): World
  {
    if agent in w.agents || Credential(r.issued) == "" || Credential(r.issued) in w.identities then w
    else
      w.(agents := w.agents + {agent},
         identities := w.identities[Credential(r.issued) := Identity(agent, false)],
         sources := if r.filed then w.sources[TokenFile(agent) := r.issued] else w.sources)
  }

  function AfterRegister(w: World, agent: string, r: Registration): Pc
  {
    if r.reply.NoReply? then Done(BusRequestFailed)
    else if agent in w.agents then Done(ExistingAgentTokenUnavailable)
    else
      match r.reply
      case Garbled => Done(RegistrationProtocolInvalid)
      case WithToken(token) =>
        if Credential(token) != "" then Holding(agent, true, token) else FiledToken(RegisteredWorld(w, agent, r), agent)
      case _ => FiledToken(RegisteredWorld(w, agent, r), agent)
  }

  function FiledToken(w: World, agent: string): Pc
  {
    if TokenFile(agent) !in w.sources then Done(RegisteredTokenUnavailable)
    else
      var token := Credential(w.sources[TokenFile(agent)]);
      if token == "" then Done(TokenEmpty) else Holding(agent, true, token)
  }

  function AfterVerify(w: World, agent: string, absent: bool, token: string, wire: Wire): Pc
  {
    if !wire.Answered? then Done(BusRequestFailed)
    else
      match IdentityOf(w, token)
      case None => Done(BusRequestFailed)
      case Some(identity) =>
        if identity.agent != agent then Done(TokenOwnerMismatch)
        else if identity.privileged then Done(PrivilegedTokenRefused)
        else Verified(agent, absent, token)
  }

  function WrittenWorld(w: World, token: string, storage: Storage): World
  {
    if storage.Untouched? then w else w.(target := Some(token + "\n"))
  }

  /** The bus binds an unbound alias and refuses a bound one; the refusal is not an error here. */
  function BoundWorld(w: World, agent: string, wire: Wire): World
  {
    if w.owner.None? && !wire.LostBefore? then w.(owner := Some(agent)) else w
  }

  function AfterConfirm(w: World, agent: string, wire: Wire): Pc
  {
    if !wire.Answered? then Done(BusRequestFailed)
    else
      match w.owner
      case Some(o) => if !SafeName(o) then Done(AliasProtocolInvalid) else if o == agent then Done(Ready) else Done(AliasOwnerChanged)
      case None => Done(AliasOwnerChanged)
  }

  /** A new call may begin only when none is under way: the lock. */
  function Next(config: Config, s: State, act: Act): State
  {
    var w := s.world;
    match act
    case Resolve(wire) =>
      if s.pc.Start? || s.pc.Done? then s.(pc := AfterResolve(config, w, wire)) else s
    case Read => if s.pc.Resolved? then s.(pc := AfterRead(config, w, s.pc.agent, s.pc.absent)) else s
    case Register(r) =>
      if s.pc.Registering? then State(RegisteredWorld(w, s.pc.agent, r), AfterRegister(w, s.pc.agent, r)) else s
    case Verify(wire) =>
      if s.pc.Holding? then s.(pc := AfterVerify(w, s.pc.agent, s.pc.absent, s.pc.token, wire)) else s
    case Write(storage) =>
      if s.pc.Verified?
      then State(WrittenWorld(w, s.pc.token, storage),
                 if storage.Stored? then Written(s.pc.agent, s.pc.absent, s.pc.token) else Done(TokenStorageFailed))
      else s
    case Bind(wire) =>
      if s.pc.Written? then
        if !s.pc.absent then s.(pc := Binding(s.pc.agent))
        else State(BoundWorld(w, s.pc.agent, wire), if wire.Answered? then Binding(s.pc.agent) else Done(BusRequestFailed))
      else s
    case Confirm(wire) => if s.pc.Binding? then s.(pc := AfterConfirm(w, s.pc.agent, wire)) else s
    case Crash => s.(pc := Start)
    case OtherBinds(agent) => if w.owner.None? then s.(world := w.(owner := Some(agent))) else s
    case OtherRebinds(newOwner) => s.(world := w.(owner := newOwner))
    case OtherIssues(token, identity) =>
      if Credential(token) in w.identities then s
      else s.(world := w.(identities := w.identities[Credential(token) := identity], agents := w.agents + {identity.agent}))
    case OtherFiles(name, content) =>
      s.(world := w.(sources := match content case None => w.sources - {name} case Some(c) => w.sources[name := c]))
  }

  function Run(config: Config, start: World, acts: seq<Act>): State
  {
    if acts == [] then State(start, Start) else Next(config, Run(config, start, acts[..|acts| - 1]), acts[|acts| - 1])
  }

  lemma RunPlus(config: Config, start: World, acts: seq<Act>, act: Act)
    ensures Run(config, start, acts + [act]) == Next(config, Run(config, start, acts), act)
  {
    assert (acts + [act])[..|acts + [act]| - 1] == acts;
  }

  predicate ByOthers(act: Act) { act.OtherBinds? || act.OtherRebinds? || act.OtherIssues? || act.OtherFiles? }

  // ----- safety over every run ----------------------------------------------

  /** The token in hand is the token on file, if there is one; from verification on it is the
      owner's own, and from the write on it is the one on file. */
  predicate Inv(s: State)
  {
    var w := s.world;
    match s.pc
    case Registering(agent) => w.target.None?
    case Holding(agent, _, token) => w.target.Some? ==> Credential(w.target.value) == Credential(token)
    case Verified(agent, _, token) =>
      (w.target.Some? ==> Credential(w.target.value) == Credential(token)) && OwnToken(w, token, agent)
    case Written(agent, _, token) => w.target == Some(token + "\n") && OwnToken(w, w.target.value, agent)
    case Binding(agent) => w.target.Some? && OwnToken(w, w.target.value, agent)
    case _ => true
  }

  lemma StepInv(config: Config, s: State, act: Act)
    requires Inv(s)
    ensures Inv(Next(config, s, act))
  {
    match act
    case Read =>
      if s.pc.Resolved? && s.world.target.Some? { StripIdempotent(s.world.target.value); }
    case Write(storage) =>
      if s.pc.Verified? { WrittenCredential(s.pc.token); }
    case _ =>
  }

  lemma {:induction false} RunInv(config: Config, start: World, acts: seq<Act>)
    ensures Inv(Run(config, start, acts))
  {
    if acts != [] {
      RunInv(config, start, acts[..|acts| - 1]);
      StepInv(config, Run(config, start, acts[..|acts| - 1]), acts[|acts| - 1]);
    }
  }

  /** What no step of this code ever does, at any point of any run: bind an alias before its
      owner's own unprivileged token is durable, rebind a bound alias, replace a token file by a
      different token, remove it, or report READY for anything but such a token and its owner. */
  lemma EveryStepIsSafe(config: Config, start: World, acts: seq<Act>, act: Act)
    requires !ByOthers(act)
    ensures var s := Run(config, start, acts);
      var s' := Next(config, s, act);
      && (s'.world.owner != s.world.owner ==>
            && s.world.owner.None? && s.world.target.Some?
            && OwnToken(s.world, s.world.target.value, s'.world.owner.value))
      && (s.world.target.Some? ==>
            s'.world.target.Some? && Credential(s'.world.target.value) == Credential(s.world.target.value))
      && (s'.pc == Done(Ready) && s.pc != Done(Ready) ==> ReadyWorld(s'.world))
  {
    var s := Run(config, start, acts);
    RunInv(config, start, acts);
    if act.Write? && s.pc.Verified? { WrittenCredential(s.pc.token); }
    if act.Bind? && s.pc.Written? && s.world.owner.None? { assert OwnToken(s.world, s.world.target.value, s.pc.agent); }
  }

  /** A token file, once there, keeps its credential over every run, whoever else is about. */
  lemma {:induction false} TokenFileIsKept(config: Config, start: World, acts: seq<Act>, later: seq<Act>)
    requires Run(config, start, acts).world.target.Some?
    ensures var w, w' := Run(config, start, acts).world, Run(config, start, acts + later).world;
      w'.target.Some? && Credential(w'.target.value) == Credential(w.target.value)
  {
    if later == [] {
      assert acts + later == acts;
    } else {
      var front, last := later[..|later| - 1], later[|later| - 1];
      assert (acts + later)[..|acts + later| - 1] == acts + front && (acts + later)[|acts + later| - 1] == last;
      TokenFileIsKept(config, start, acts, front);
      if !ByOthers(last) { EveryStepIsSafe(config, start, acts + front, last); }
    }
  }

  // ----- a call that nobody disturbs ----------------------------------------

  /** One call up to the token in hand, from there to its end, and from start to end. */
  function Obtain(config: Config, w: World, r: Registration): State
  {
    Next(config, Next(config, Next(config, State(w, Start), Resolve(Answered)), Read), Register(r))
  }

  function Finish(config: Config, s: State): State
  {
    Next(config, Next(config, Next(config, Next(config, s, Verify(Answered)), Write(Stored)), Bind(Answered)), Confirm(Answered))
  }

  function Call(config: Config, w: World, r: Registration): State { Finish(config, Obtain(config, w, r)) }

  /** The call gets as far as a registration that the bus makes and confirms. */
  predicate Registers(config: Config, w: World, r: Registration, agent: string, absent: bool)
  {
    absent && NoFile(w, config, agent) && agent !in w.agents && !r.reply.NoReply? && !r.reply.Garbled?
  }

  class LineHost {
    var owner: Option<string>
    var agents: set<string>
    var identities: map<string, Identity>
    var target: Option<string>
    var sources: map<string, string>

    function View(): World
      reads this
    {
      World(owner, agents, identities, target, sources)
    }

    method Verify(token: string, agent: string) returns (problem: Option<Code>)
      ensures problem == match AfterVerify(View(), agent, true, token, Answered)
                         case Done(code) => Some(code)
                         case _ => None
    {
      if Credential(token) !in identities { return Some(BusRequestFailed); }
      var identity := identities[Credential(token)];
      if identity.agent != agent { return Some(TokenOwnerMismatch); }
      if identity.privileged { return Some(PrivilegedTokenRefused); }
      problem := None;
    }

    /** The line's own token, the bus directory's, or the one a registration gives. */
    method ObtainToken(config: Config, r: Registration, agent: string, absent: bool)
      returns (token: Result<string, Code>, created: bool)
      modifies this
      ensures created <==> Registers(config, old(View()), r, agent, absent)
      ensures State(View(), match token case Ok(t) => Holding(agent, absent, t) case Err(code) => Done(code))
              == Next(config, Next(config, State(old(View()), Resolved(agent, absent)), Read), Register(r))
    {
      var content := Available(View(), config, agent);
      if content.Some? {
        return if Credential(content.value) == "" then Err(TokenEmpty) else Ok(Credential(content.value)), false;
      }
      if !absent { return Err(ExistingAgentTokenUnavailable), false; }
      var known := agent in agents;
      var after := RegisteredWorld(View(), agent, r);
      agents, identities, sources := after.agents, after.identities, after.sources;
      if r.reply.NoReply? { return Err(BusRequestFailed), false; }
      if known { return Err(ExistingAgentTokenUnavailable), false; }
      if r.reply.Garbled? { return Err(RegistrationProtocolInvalid), false; }
      created := true;
      if r.reply.WithToken? && Credential(r.reply.token) != "" { return Ok(r.reply.token), created; }
      if TokenFile(agent) !in sources { return Err(RegisteredTokenUnavailable), created; }
      var filed := Credential(sources[TokenFile(agent)]);
      token := if filed == "" then Err(TokenEmpty) else Ok(filed);
    }

    method UseToken(config: Config, agent: string, absent: bool, token: string) returns (code: Code, created: bool)
      modifies this
      ensures created <==> owner != old(owner)
      ensures State(View(), Done(code)) == Finish(config, State(old(View()), Holding(agent, absent, token)))
    {
      created := false;
      var problem := Verify(token, agent);
      if problem.Some? { return problem.value, created; }
      target := Some(token + "\n");
      if absent && owner.None? { owner, created := Some(agent), true; }
      if owner.Some? && !SafeName(owner.value) { return AliasProtocolInvalid, created; }
      code := if owner == Some(agent) then Ready else AliasOwnerChanged;
    }

    /** The whole call, undisturbed; r is what the bus would do with a registration. */
    method PrepareLine(config: Config, r: Registration) returns (code: Code, createdAgent: bool, createdAlias: bool)
      modifies this
      ensures !SafeName(config.alias) ==> code == InvalidAlias && View() == old(View())
      ensures SafeName(config.alias) ==> State(View(), Done(code)) == Call(config, old(View()), r)
      ensures createdAgent <==>
        SafeName(config.alias) && old(owner).None? && Registers(config, old(View()), r, config.derived, true)
      ensures createdAlias <==> owner != old(owner)
    {
      createdAgent, createdAlias := false, false;
      if !SafeName(config.alias) { return InvalidAlias, createdAgent, createdAlias; }
      if owner.Some? && !SafeName(owner.value) { return AliasProtocolInvalid, createdAgent, createdAlias; }
      var absent := owner.None?;
      var agent := if absent then config.derived else owner.value;
      var token;
      token, createdAgent := ObtainToken(config, r, agent, absent);
      if token.Err? { return token.error, createdAgent, createdAlias; }
      code, createdAlias := UseToken(config, agent, absent, token.value);
    }
  }

  lemma ReadyIsSound(config: Config, w: World, r: Registration)
    requires Call(config, w, r).pc == Done(Ready)
    ensures ReadyWorld(Call(config, w, r).world)
  {
    ObtainInv(config, w, r);
    FinishInv(config, Obtain(config, w, r));
  }

  lemma ObtainInv(config: Config, w: World, r: Registration)
    ensures var s := Obtain(config, w, r); Inv(s) && (s.pc.Holding? || (s.pc.Done? && s.pc.code != Ready))
  {
    var s1 := Next(config, State(w, Start), Resolve(Answered));
    StepInv(config, State(w, Start), Resolve(Answered));
    StepInv(config, s1, Read);
    StepInv(config, Next(config, s1, Read), Register(r));
  }

  lemma FinishInv(config: Config, s: State)
    requires Inv(s) && (s.pc.Holding? || (s.pc.Done? && s.pc.code != Ready))
    requires Finish(config, s).pc == Done(Ready)
    ensures ReadyWorld(Finish(config, s).world)
  {
    var s4 := Next(config, s, Verify(Answered));
    var s5 := Next(config, s4, Write(Stored));
    StepInv(config, s, Verify(Answered));
    StepInv(config, s4, Write(Stored));
    StepInv(config, s5, Bind(Answered));
    assert Next(config, s5, Bind(Answered)).pc.Binding?;
  }

  // ----- what a call answers, from the files and the bus as they are ---------

  /** The text the token is taken from: the line's own file, else the bus directory's file for the
      agent, whatever there is for the alias, else its file for the alias. */
  predicate FirstFile(w: World, config: Config, agent: string, content: string)
  {
    || w.target == Some(content)
    || (w.target.None? && agent + ".token" in w.sources && w.sources[agent + ".token"] == content)
    || (w.target.None? && agent + ".token" !in w.sources
        && config.alias + ".token" in w.sources && w.sources[config.alias + ".token"] == content)
  }

  predicate NoFile(w: World, config: Config, agent: string)
  {
    w.target.None? && agent + ".token" !in w.sources && config.alias + ".token" !in w.sources
  }

  lemma OneFileOrNone(w: World, config: Config, agent: string, content: string)
    ensures FirstFile(w, config, agent, content) <==> Available(w, config, agent) == Some(content)
    ensures NoFile(w, config, agent) <==> Available(w, config, agent) == None
  {
  }

  function AgentOf(config: Config, w: World): string { match w.owner case None => config.derived case Some(agent) => agent }

  /** The token of a fresh registration: the answer's, else the one the bus has left on file. */
  predicate HandedOver(w: World, agent: string, r: Registration, token: string)
  {
    var after := RegisteredWorld(w, agent, r);
    || (r.reply == WithToken(token) && Strip(token) != "")
    || ((r.reply == WithoutToken || (r.reply.WithToken? && Strip(r.reply.token) == ""))
        && agent + ".token" in after.sources && token == Strip(after.sources[agent + ".token"]) != "")
  }

  /** With a file at hand the token is the credential of exactly that file. */
  lemma TokenIsOfFirstFile(config: Config, w: World, r: Registration, content: string)
    requires SafeName(AgentOf(config, w)) && FirstFile(w, config, AgentOf(config, w), content)
    ensures Obtain(config, w, r)
      == State(w, if Strip(content) == "" then Done(TokenEmpty) else Holding(AgentOf(config, w), w.owner.None?, Strip(content)))
  {
    OneFileOrNone(w, config, AgentOf(config, w), content);
  }

  /** Without one, only an alias that nobody owns gets as far as a registration. */
  lemma TokenIsOfRegistration(config: Config, w: World, r: Registration)
    requires SafeName(AgentOf(config, w)) && NoFile(w, config, AgentOf(config, w))
    ensures w.owner.Some? ==> Obtain(config, w, r) == State(w, Done(ExistingAgentTokenUnavailable))
    ensures w.owner.None? ==>
      var agent := config.derived;
      var after, pc := RegisteredWorld(w, agent, r), Obtain(config, w, r).pc;
      && Obtain(config, w, r).world == after
      && (r.reply == NoReply ==> pc == Done(BusRequestFailed))
      && (r.reply != NoReply && agent in w.agents ==> pc == Done(ExistingAgentTokenUnavailable))
      && (r.reply == Garbled && agent !in w.agents ==> pc == Done(RegistrationProtocolInvalid))
      && (r.reply != NoReply && r.reply != Garbled && agent !in w.agents ==>
            && (forall token :: HandedOver(w, agent, r, token) ==> pc == Holding(agent, true, token))
            && ((forall token :: !HandedOver(w, agent, r, token)) ==>
                  pc == Done(if agent + ".token" in after.sources then TokenEmpty else RegisteredTokenUnavailable)))
  {
    OneFileOrNone(w, config, AgentOf(config, w), "");
    if w.owner.None? && r.reply != NoReply && r.reply != Garbled && config.derived !in w.agents {
      RegistrationHandsOver(w, config.derived, r);
    }
  }

  lemma RegistrationHandsOver(w: World, agent: string, r: Registration)
    requires r.reply != NoReply && r.reply != Garbled && agent !in w.agents
    ensures var after, pc := RegisteredWorld(w, agent, r), AfterRegister(w, agent, r);
      && (forall token :: HandedOver(w, agent, r, token) ==> pc == Holding(agent, true, token))
      && ((forall token :: !HandedOver(w, agent, r, token)) ==>
            pc == Done(if agent + ".token" in after.sources then TokenEmpty else RegisteredTokenUnavailable))
  {
    var after := RegisteredWorld(w, agent, r);
    if r.reply.WithToken? && Strip(r.reply.token) != "" {
      assert HandedOver(w, agent, r, r.reply.token);
    } else if agent + ".token" in after.sources {
      assert Strip(after.sources[agent + ".token"]) != "" ==> HandedOver(w, agent, r, Strip(after.sources[agent + ".token"]));
    }
  }

  /** What becomes of the token in hand: whose it is decides, and a good one is written before the
      alias is bound. */
  lemma TokenDecides(config: Config, s: State)
    requires s.pc.Holding? && SafeName(s.pc.agent)
    requires s.world.owner == if s.pc.absent then None else Some(s.pc.agent)
    ensures var w, agent, key := s.world, s.pc.agent, Strip(s.pc.token);
      && (key !in w.identities ==> Finish(config, s) == State(w, Done(BusRequestFailed)))
      && (key in w.identities && w.identities[key].agent != agent ==> Finish(config, s) == State(w, Done(TokenOwnerMismatch)))
      && (key in w.identities && w.identities[key] == Identity(agent, true) ==>
            Finish(config, s) == State(w, Done(PrivilegedTokenRefused)))
      && (key in w.identities && w.identities[key] == Identity(agent, false) ==>
            Finish(config, s) == State(w.(target := Some(s.pc.token + "\n"), owner := Some(agent)), Done(Ready)))
  {
    var s4 := Next(config, s, Verify(Answered));
    if OwnToken(s.world, s.pc.token, s.pc.agent) {
      assert s4.pc == Verified(s.pc.agent, s.pc.absent, s.pc.token);
    } else {
      assert s4.pc.Done? && Finish(config, s) == s4;
    }
  }

  /** An owner whose name is not safe is refused before anything is read. */
  lemma UnsafeOwnerIsRefused(config: Config, w: World, r: Registration)
    requires w.owner.Some? && !SafeName(w.owner.value)
    ensures Call(config, w, r) == State(w, Done(AliasProtocolInvalid))
  {
  }

  /** A request without an answer ends the call, wherever it is sent; so does a failed write. */
  lemma LostRequestsEndTheCall(config: Config, s: State, wire: Wire, storage: Storage)
    requires wire != Answered && storage != Stored
    ensures s.pc.Start? || s.pc.Done? ==> Next(config, s, Resolve(wire)).pc == Done(BusRequestFailed)
    ensures s.pc.Holding? ==> Next(config, s, Verify(wire)).pc == Done(BusRequestFailed)
    ensures s.pc.Verified? ==> Next(config, s, Write(storage)).pc == Done(TokenStorageFailed)
    ensures s.pc.Written? && s.pc.absent ==> Next(config, s, Bind(wire)).pc == Done(BusRequestFailed)
    ensures s.pc.Binding? ==> Next(config, s, Confirm(wire)).pc == Done(BusRequestFailed)
  {
  }

  /** The last answer: READY for the line's own agent, and otherwise what is wrong with the owner. */
  lemma OwnerConfirms(config: Config, s: State)
    requires s.pc.Binding? && SafeName(s.pc.agent)
    ensures var next := Next(config, s, Confirm(Answered));
      && next.world == s.world
      && (next.pc == Done(Ready) <==> s.world.owner == Some(s.pc.agent))
      && (next.pc == Done(AliasProtocolInvalid) <==> s.world.owner.Some? && !SafeName(s.world.owner.value))
      && (next.pc == Done(AliasOwnerChanged)
          <==> s.world.owner == None || (SafeName(s.world.owner.value) && s.world.owner.value != s.pc.agent))
  {
  }

  /** What a write and a binding leave behind, whatever becomes of their answers: the token file is
      there unless the write failed before it was put in place, and the alias is bound unless it has
      an owner already, was not free when the call began, or the request never arrived. */
  lemma WriteAndBindLeave(config: Config, s: State, storage: Storage, wire: Wire)
    ensures s.pc.Verified? ==>
      var w := Next(config, s, Write(storage)).world;
      w == s.world.(target := w.target) && w.target == if storage == Untouched then s.world.target else Some(s.pc.token + "\n")
    ensures s.pc.Written? ==>
      var w := Next(config, s, Bind(wire)).world;
      && w == s.world.(owner := w.owner)
      && w.owner == if s.pc.absent && s.world.owner == None && wire != LostBefore then Some(s.pc.agent) else s.world.owner
    ensures s.pc.Written? && !s.pc.absent ==> Next(config, s, Bind(wire)).pc == Binding(s.pc.agent)
  {
  }

  /** What a registration changes on the bus: nothing if the agent is there, no token is issued or
      the token is another's; else the agent, its token, and the token's file if the bus keeps one. */
  lemma RegistrationLeaves(config: Config, s: State, r: Registration)
    requires s.pc.Registering?
    ensures var w, next, agent := s.world, Next(config, s, Register(r)).world, s.pc.agent;
      && (agent in w.agents || Strip(r.issued) == "" || Strip(r.issued) in w.identities ==> next == w)
      && (agent !in w.agents && Strip(r.issued) != "" && Strip(r.issued) !in w.identities ==>
            && next.owner == w.owner && next.target == w.target && next.agents == w.agents + {agent}
            && next.identities == w.identities[Strip(r.issued) := Identity(agent, false)]
            && next.sources == if r.filed then w.sources[agent + ".token" := r.issued] else w.sources)
  {
  }

  /** The names the bus may give: ASCII letters, digits, '_' and '-', and after the first '.'. */
  predicate Letter(c: char)
  {
    || (exists i :: 0 <= i < 26 && "abcdefghijklmnopqrstuvwxyz"[i] == c)
    || (exists i :: 0 <= i < 26 && "ABCDEFGHIJKLMNOPQRSTUVWXYZ"[i] == c)
  }

  predicate Figure(c: char) { exists i :: 0 <= i < 10 && "0123456789"[i] == c }

  lemma LettersAre(c: char)
    ensures Letter(c) <==> 'a' <= c <= 'z' || 'A' <= c <= 'Z'
  {
    if 'a' <= c <= 'z' { assert "abcdefghijklmnopqrstuvwxyz"[c as int - 'a' as int] == c; }
    if 'A' <= c <= 'Z' { assert "ABCDEFGHIJKLMNOPQRSTUVWXYZ"[c as int - 'A' as int] == c; }
  }

  lemma FiguresAre(c: char)
    ensures Figure(c) <==> '0' <= c <= '9'
  {
    if '0' <= c <= '9' { assert "0123456789"[c as int - '0' as int] == c; }
  }

  lemma SafeNamesAre(s: string)
    ensures SafeName(s) <==>
      && s != "" && s[0] != '.'
      && forall i :: 0 <= i < |s| ==> Letter(s[i]) || Figure(s[i]) || s[i] == '_' || s[i] == '-' || s[i] == '.'
  {
    forall i | 0 <= i < |s|
      ensures WordChar(s[i]) <==> Letter(s[i]) || Figure(s[i]) || s[i] == '_' || s[i] == '-' {
      LettersAre(s[i]);
      FiguresAre(s[i]);
    }
    if s != "" {
      LettersAre('.');
      FiguresAre('.');
    }
  }

  /** A retry finds its way back: an undisturbed call ends READY with the alias bound exactly when
      the owner's own unprivileged token is in the first file there is, or, for an alias nobody
      owns and no file at all, when the bus registers the derived agent now and hands its token over. */
  lemma CallIsReady(config: Config, w: World, r: Registration)
    requires SafeName(config.derived)
    ensures var agent := AgentOf(config, w);
      Call(config, w, r).pc == Done(Ready) <==>
        && SafeName(agent)
        && (|| (exists content :: FirstFile(w, config, agent, content) && Strip(content) != "" && OwnToken(w, content, agent))
            || (&& NoFile(w, config, agent) && w.owner.None? && agent !in w.agents
                && exists token :: HandedOver(w, agent, r, token) && OwnToken(RegisteredWorld(w, agent, r), token, agent)))
    ensures Call(config, w, r).pc == Done(Ready) ==> ReadyWorld(Call(config, w, r).world)
  {
    var agent := AgentOf(config, w);
    if Call(config, w, r).pc == Done(Ready) { ReadyIsSound(config, w, r); }
    if !SafeName(agent) {
      UnsafeOwnerIsRefused(config, w, r);
    } else if content :| FirstFile(w, config, agent, content) {
      ReadyByFile(config, w, r, content);
    } else {
      var available := Available(w, config, agent);
      OneFileOrNone(w, config, agent, if available.Some? then available.value else "");
      ReadyByRegistration(config, w, r);
    }
  }

  lemma ReadyByFile(config: Config, w: World, r: Registration, content: string)
    requires SafeName(AgentOf(config, w)) && FirstFile(w, config, AgentOf(config, w), content)
    ensures Call(config, w, r).pc == Done(Ready) <==> Strip(content) != "" && OwnToken(w, content, AgentOf(config, w))
  {
    TokenIsOfFirstFile(config, w, r, content);
    StripIdempotent(content);
    if Strip(content) == "" {
      assert Finish(config, Obtain(config, w, r)) == Obtain(config, w, r);
    } else {
      TokenDecides(config, Obtain(config, w, r));
    }
  }

  lemma ReadyByRegistration(config: Config, w: World, r: Registration)
    requires SafeName(AgentOf(config, w)) && NoFile(w, config, AgentOf(config, w))
    ensures Call(config, w, r).pc == Done(Ready) <==>
      && w.owner.None? && config.derived !in w.agents
      && exists token :: HandedOver(w, config.derived, r, token) && OwnToken(RegisteredWorld(w, config.derived, r), token, config.derived)
  {
    var s := Obtain(config, w, r);
    TokenIsOfRegistration(config, w, r);
    if s.pc.Holding? {
      TokenDecides(config, s);
    } else {
      ObtainInv(config, w, r);
      assert Finish(config, s) == s;
    }
  }

  /** The one window a retry cannot close: a crash between a fresh registration and the write.
      Whatever the bus would answer the second time, the retry ends READY exactly when the bus
      itself had left the token in its directory. */
  lemma RetryAfterLostRegistration(config: Config, w: World, r: Registration, again: Registration)
    requires SafeName(config.derived)
    requires w.owner.None? && NoFile(w, config, config.derived) && config.derived !in w.agents
    requires Credential(r.issued) != "" && Credential(r.issued) !in w.identities
    ensures var w' := Run(config, w, [Resolve(Answered), Read, Register(r), Crash]).world;
      (Call(config, w', again).pc == Done(Ready)) == r.filed
  {
    var upTo1, upTo2, upTo3 := [Resolve(Answered)], [Resolve(Answered), Read], [Resolve(Answered), Read, Register(r)];
    RunPlus(config, w, [], Resolve(Answered));
    RunPlus(config, w, upTo1, Read);
    RunPlus(config, w, upTo2, Register(r));
    RunPlus(config, w, upTo3, Crash);
    assert [] + [Resolve(Answered)] == upTo1 && upTo1 + [Read] == upTo2 && upTo2 + [Register(r)] == upTo3;
    assert upTo3 + [Crash] == [Resolve(Answered), Read, Register(r), Crash];
    assert Run(config, w, upTo2) == State(w, Registering(config.derived));
    var w' := RegisteredWorld(w, config.derived, r);
    assert w' == Run(config, w, upTo3 + [Crash]).world;
    CallIsReady(config, w', again);
  }
}
