/** What each command code makes the server do, code by code: to the sender's record, and on the connections. */
module Commands {
  import opened SwitchTypes
  import opened Entities
  import opened Registry
  import opened RegistryInvariant
  import opened Runs
  import opened Routing
  import opened Services
  import opened Network
  import opened CommandHandler
  import opened Delivery
  import opened Registration
  import SwitchService
  import Wire

  // ----- Codes 3 to 8: filters -----

  // The named elements are in the set afterwards, or are not; the others are as before.
  ghost predicate Changed<T(!new)>(before: set<T>, after: set<T>, named: seq<T>, added: bool) {
    forall x: T :: x in after <==> if x in named then added else x in before
  }

  // The sender is registered.
  ghost predicate FromMember(s: State, c: Connection) {
    c in s.ids && s.ids[c] in s.endpoints && s.endpoints[s.ids[c]] in s.store
  }

  function NoNames<T>(named: seq<T>, applies: bool): seq<T> {
    if applies then named else []
  }

  lemma AppliedChanges(r: Record, cmd: FilterCommand, code: Byte, content: Content)
    requires 3 <= code <= 8 && FilterOf(code, content) == Some(cmd)
    ensures var r' := if cmd.NamesNothing() then r else Applied(r, cmd);
            && Changed(r.fwdTargets, r'.fwdTargets, NoNames(content.targets, code in {3, 4}), code == 3)
            && Changed(r.subsSources, r'.subsSources, NoNames(content.sources, code in {5, 6}), code == 5)
            && Changed(r.subsMessages, r'.subsMessages, NoNames(content.messages, code in {5, 6}), code == 5)
            && Changed(r.rejSources, r'.rejSources, NoNames(content.sources, code in {7, 8}), code == 7)
            && Changed(r.rejMessages, r'.rejMessages, NoNames(content.messages, code in {7, 8}), code == 7)
            && r'.role == r.role && r'.token == r.token && r'.conn == r.conn && r'.svcType == r.svcType
  {
  }

  lemma FilterCode(code: Byte, content: Content)
    ensures FilterOf(code, content).Some? <==> 3 <= code <= 8
  {
  }

  /** The six filter codes: 3 and 4 add to and take from the forward set, 5 and 6 the whitelists, 7 and 8 the blacklists of
      the sender, exactly the ids and types named; nothing else changes in any endpoint. */
  lemma FilterCodes(s: State, c: Connection, buf: seq<Byte>, content: Content, step: Option<Event>)
    requires WellFormed(s) && Wire.Complete(buf) && c in s.open && FromMember(s, c)
    requires 3 <= buf[0] <= 8 && content.readable && Dispatched(s, c, buf, content, step)
    ensures step.Some? && Possible(s, step.value) && s.endpoints[s.ids[c]] in Next(s, step.value).store
    ensures var e, s', code := s.endpoints[s.ids[c]], Next(s, step.value), buf[0];
            var r, r' := s.store[e], s'.store[e];
            && Changed(r.fwdTargets, r'.fwdTargets, NoNames(content.targets, code in {3, 4}), code == 3)
            && Changed(r.subsSources, r'.subsSources, NoNames(content.sources, code in {5, 6}), code == 5)
            && Changed(r.subsMessages, r'.subsMessages, NoNames(content.messages, code in {5, 6}), code == 5)
            && Changed(r.rejSources, r'.rejSources, NoNames(content.sources, code in {7, 8}), code == 7)
            && Changed(r.rejMessages, r'.rejMessages, NoNames(content.messages, code in {7, 8}), code == 7)
            && r'.role == r.role && r'.token == r.token && r'.conn == r.conn && r'.svcType == r.svcType
            && (forall x | x in s.store && x != e :: x in s'.store && s'.store[x] == s.store[x])
            && s'.endpoints == s.endpoints && s'.normal == s.normal && s'.admin == s.admin && s'.services == s.services
  {
    FilterCode(buf[0], content);
    var e, filter := s.endpoints[s.ids[c]], FilterOf(buf[0], content).value;
    AppliedChanges(s.store[e], filter, buf[0], content);
    hide WellFormed, Applied, FilterOf, Announces, Changed;
  }

  /** They are answered with an error exactly when they name nothing or cannot be read. */
  lemma FilterAnswers(s: State, c: Connection, buf: seq<Byte>, content: Content, step: Option<Event>, selfIncluded: bool)
    requires WellFormed(s) && Wire.Complete(buf) && FromMember(s, c)
    requires 3 <= buf[0] <= 8 && Dispatched(s, c, buf, content, step)
    ensures var named := if buf[0] <= 4 then content.targets != [] else content.sources != [] || content.messages != [];
            var to := s.store[s.endpoints[s.ids[c]]].conn;
            Reaction(s, c, buf, content, step, selfIncluded)
            == [Result(to, buf[0], if content.readable && named then 0 else 1, None)]
  {
    FilterCode(buf[0], content);
    hide WellFormed, Announces, Answer;
  }

  // ----- Code 2: registration -----

  /** A registration that is not authorized, asks for no role of 1 to 3 or cannot be read takes no step and is answered
      with an error; any other is answered without one exactly when it registers. */
  lemma RegisterCode(s: State, c: Connection, buf: seq<Byte>, content: Content, step: Option<Event>, selfIncluded: bool)
    requires WellFormed(s) && Wire.Complete(buf) && buf[0] == 2 && Dispatched(s, c, buf, content, step)
    ensures step.Some? <==> content.readable && content.register.authorized && 1 <= content.register.role <= 3
    ensures step.Some? ==> step.value.Registering? && step.value.c == c && step.value.cmd == content.register
    ensures step == None ==> Reaction(s, c, buf, content, step, selfIncluded) == [Result(c, 2, 1, None)]
    ensures step.Some? ==>
              var ok := Wanted(step.value) in s.endpoints ==> MayRejoin(s.store[s.endpoints[Wanted(step.value)]], step.value);
              var log := Reaction(s, c, buf, content, step, selfIncluded);
              && log != [] && log[|log| - 1] == Result(c, 2, if ok then 0 else 1, None)
              && (!ok ==> |log| == 1)
  {
    hide WellFormed, Announces, Answer;
    if step.Some? {
      RegistersExactly(s, step.value);
    }
    RefusedDisplacesNobody(s, step);
    hide Displaced, Registers;
  }

  lemma RefusedDisplacesNobody(s: State, step: Option<Event>)
    requires WellFormed(s) && (step.Some? ==> step.value.Registering?)
    ensures step.Some? && !Registers(s, step.value) ==> Displaced(s, step.value) == []
  {
    hide WellFormed;
  }

  // ----- Everyone else must be registered first -----

  /** From a connection whose id is no key every code but 1 and 2 takes no step and is answered with an error; code 1 is
      answered to anyone. */
  lemma UnknownSender(s: State, c: Connection, buf: seq<Byte>, content: Content, step: Option<Event>, selfIncluded: bool)
    requires WellFormed(s) && Wire.Complete(buf) && c in s.ids && Dispatched(s, c, buf, content, step)
    ensures buf[0] == 1 ==> step == None && Reaction(s, c, buf, content, step, selfIncluded) == [Result(c, 1, 0, None)]
    ensures buf[0] != 1 && buf[0] != 2 && s.ids[c] !in s.endpoints ==>
              step == None && Reaction(s, c, buf, content, step, selfIncluded) == [Result(c, buf[0], 1, None)]
  {
    hide WellFormed, Announces, Answer;
  }

  // ----- Code 16: kickout -----

  /** Only an admin kicks out; then the named endpoints are told and asked to go, and the error says whether any was named. */
  lemma KickoutCode(s: State, c: Connection, buf: seq<Byte>, content: Content, step: Option<Event>, selfIncluded: bool)
    requires WellFormed(s) && Wire.Complete(buf) && FromMember(s, c) && buf[0] == 16
    requires Dispatched(s, c, buf, content, step)
    ensures var r := s.store[s.endpoints[s.ids[c]]];
            var log := Reaction(s, c, buf, content, step, selfIncluded);
            if r.role == Admin && content.readable
            then log == SwitchService.KickedOut(s, content.targets)
                        + [Result(r.conn, 16, if content.targets == [] then 1 else 0, None)]
            else step == None && log == [Result(r.conn, 16, 1, None)]
  {
    hide WellFormed, Announces, Answer;
  }

  // ----- Code 11: services -----

  /** A service request is passed on to one connection, that of a live service of the requested type or of the wildcard type
      while nobody serves the requested one, which takes the command; and only if there is none is it answered: with a
      reply to the sender that carries the response flag, the request's own header and error code 1. */
  lemma RequestCode(s: State, c: Connection, buf: seq<Byte>, content: Content, step: Option<Event>)
    requires Inv(s) && Wire.Complete(buf) && FromMember(s, c) && buf[0] == 11 && buf[1] < 128
    requires Dispatched(s, c, buf, content, step)
    ensures |buf| >= Wire.HEADER_SIZE + Wire.SERVICE_SIZE && step.Some? && step.value.ServiceRequest?
    ensures var e, header := s.endpoints[s.ids[c]], Wire.ServiceHeaderAt(buf, Wire.HEADER_SIZE);
            var log, chosen := Reaction(s, c, buf, content, step, true), step.value.chosen;
            && step.value.header == header && |log| == 1 && log[0].Sent?
            && (chosen.Some? ==>
                  && Live(s.endpoints, s.store, s.ids, chosen.value) && s.store[chosen.value].role == Service
                  && ForwardingAllowed(s, e, chosen.value, header.svcCmd)
                  && (s.store[chosen.value].svcType == header.svcType
                      || (s.store[chosen.value].svcType == 0 && !Served(s, header.svcType)))
                  && log[0] == Sent(s.store[chosen.value].conn, Wire.ToNetwork(buf, true)))
            && (chosen == None ==>
                  && AllowedOf(s, e, Consulted(s.services, header.svcType), header.svcCmd) == {}
                  && log[0].to == s.store[e].conn && |log[0].bytes| >= Wire.HEADER_SIZE + Wire.SERVICE_SIZE + Wire.RESULT_SIZE
                  && var reply := Wire.FromNetwork(log[0].bytes, true);
                     && reply[0] == 11 && Wire.HasResponseFlag(reply)
                     && Wire.ServiceHeaderAt(reply, Wire.HEADER_SIZE) == header
                     && reply[Wire.HEADER_SIZE + Wire.SERVICE_SIZE] == 1)
  {
    CompleteMeans(buf);
    Wire.ResponseBit(buf);
    var e, header := s.endpoints[s.ids[c]], Wire.ServiceHeaderAt(buf, Wire.HEADER_SIZE);
    RequestDispatched(s, c, buf, content, step);
    var chosen := step.value.chosen;
    if chosen.Some? {
      ChosenServes(s, e, header, chosen.value);
    } else {
      RefusedExactly(s, e, header, chosen);
      Wire.ReplyRoundTrip(buf, 1, Wire.NO_SERVICE);
    }
    hide Inv, WellFormed, Selectable, Live, Served, ForwardingAllowed, AllowedOf, Reaction, Dispatched;
    hide Wire.ServiceReply, Wire.FromNetwork, Wire.ToNetwork, Wire.HasResponseFlag, Wire.ServiceHeaderAt, Wire.Payload;
  }

  lemma RequestDispatched(s: State, c: Connection, buf: seq<Byte>, content: Content, step: Option<Event>)
    requires WellFormed(s) && Wire.Complete(buf) && FromMember(s, c) && buf[0] == 11
    requires |buf| >= Wire.HEADER_SIZE + Wire.SERVICE_SIZE && !Wire.HasResponseFlag(buf)
    requires Dispatched(s, c, buf, content, step)
    ensures step.Some? && step.value.ServiceRequest?
    ensures var e, header := s.endpoints[s.ids[c]], Wire.ServiceHeaderAt(buf, Wire.HEADER_SIZE);
            var chosen := step.value.chosen;
            && step.value.header == header && Selectable(s, e, header, chosen) && (chosen.Some? ==> chosen.value in s.store)
            && Reaction(s, c, buf, content, step, true)
               == [if chosen.Some? then Sent(s.store[chosen.value].conn, Wire.ToNetwork(buf, true))
                   else Sent(s.store[e].conn, Wire.ServiceReply(buf, 1, Wire.NO_SERVICE, true))]
  {
    FilterCode(buf[0], content);
    var e, header := s.endpoints[s.ids[c]], Wire.ServiceHeaderAt(buf, Wire.HEADER_SIZE);
    assert Announces(s, c, e, buf, step.value);
    if step.value.chosen.Some? {
      SelectedStored(s, e, header, step.value.chosen.value);
    }
    RequestAnswer(s, c, e, buf, step.value.chosen, true);
    hide WellFormed, Selectable, FilterOf, Wire.ServiceReply, Wire.ToNetwork, Wire.ServiceHeaderAt;
  }

  /** A service response is passed on to the connection of the endpoint registered under the source id in its header, and
      dropped when there is none. */
  lemma ResponseCode(s: State, c: Connection, buf: seq<Byte>, content: Content, step: Option<Event>)
    requires WellFormed(s) && Wire.Complete(buf) && FromMember(s, c) && buf[0] == 11 && buf[1] >= 128
    requires Dispatched(s, c, buf, content, step)
    ensures |buf| >= Wire.HEADER_SIZE + Wire.SERVICE_SIZE
    ensures var header := Wire.ServiceHeaderAt(buf, Wire.HEADER_SIZE);
            && step == Some(ServiceResponse(c, header))
            && (header.source in s.endpoints ==> s.endpoints[header.source] in s.store)
            && Reaction(s, c, buf, content, step, true)
               == if header.source in s.endpoints
                  then [Sent(s.store[s.endpoints[header.source]].conn, Wire.ToNetwork(buf, true))] else []
  {
    CompleteMeans(buf);
    Wire.ResponseBit(buf);
    FilterCode(buf[0], content);
    var e, header := s.endpoints[s.ids[c]], Wire.ServiceHeaderAt(buf, Wire.HEADER_SIZE);
    if header.source in s.endpoints {
      MemberStored(s, header.source);
    }
    ResponseAnswer(s, c, e, buf, true);
    hide WellFormed, FilterOf, Wire.ToNetwork, Wire.ServiceHeaderAt, Wire.HasResponseFlag;
  }

  // ----- Codes 9 and 10: publishing -----

  /** A plain publish sends the re-encoded buffer to the plain recipients, a typed one to those of its targets and type, and
      both end with the number of recipients for the publisher. */
  lemma PublishCodes(s: State, c: Connection, buf: seq<Byte>, content: Content, step: Option<Event>)
    requires WellFormed(s) && Wire.Complete(buf) && FromMember(s, c) && (buf[0] == 9 || buf[0] == 10)
    requires Dispatched(s, c, buf, content, step)
    ensures |buf| >= Wire.HEADER_SIZE && (buf[0] == 10 ==> Wire.HoldsTargets(buf))
    ensures var e := s.endpoints[s.ids[c]];
            var targets := if buf[0] == 9 then PlainTargets(s, e) else Receivers(s, e, buf);
            && (buf[0] == 9 ==> step == Some(Publishing(c)))
            && (buf[0] == 10 ==> step.Some? && step.value.PublishingTo? && step.value.c == c)
            && Reaction(s, c, buf, content, step, true) == Published(s, e, buf[0], targets, Wire.ToNetwork(buf, true))
  {
    CompleteMeans(buf);
    FilterCode(buf[0], content);
    hide WellFormed, FilterOf, Wire.ToNetwork;
  }

  /** What is passed on are the received bytes, whatever they are, unless the length field was 1 or 2. */
  lemma PassedOnUnchanged(received: seq<Byte>)
    requires |received| >= Wire.HEADER_SIZE
    ensures Wire.ToNetwork(Wire.FromNetwork(received, true), true) == received
            <==> 0x100 * received[2] as int + received[3] as int !in {1, 2}
  {
    Wire.ForwardingRestores(received);
    hide Wire.ToNetwork, Wire.FromNetwork;
  }

  /** Of every command but those whose answers are left out, what the server sends, reports and asks for is the reaction
      that the lemmas above describe, added to what it has done before. */
  lemma LogGrows(s: State, c: Connection, buf: seq<Byte>, content: Content, step: Option<Event>, selfIncluded: bool,
                 before: seq<Effect>, after: seq<Effect>)
    requires WellFormed(s) && Wire.Complete(buf) && c in s.ids
    requires Answered(s, c, buf, content, step, selfIncluded, before, after)
    ensures Dispatched(s, c, buf, content, step)
    ensures buf[0] !in {12, 13, 14, 18} || s.ids[c] !in s.endpoints ==>
              after == before + Reaction(s, c, buf, content, step, selfIncluded)
  {
    hide WellFormed, Dispatched, Reaction;
  }
}
