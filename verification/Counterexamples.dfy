/** Concrete inputs on which a property fails; each exact condition is proved beside the property. */
module Counterexamples {
  import opened SwitchTypes
  import opened Entities
  import opened Registry
  import opened RegistryInvariant
  import opened Runs
  import opened Environment
  import opened Wire
  import Md5

  // ----- Frames -----

  /** A received length field of 1 is sent on as 3. */
  lemma ShortLengthChanges()
    ensures var buf: seq<Byte> := [PUBLISH, JSON, 0, 1]; ToNetwork(FromNetwork(buf, true), true) == [PUBLISH, JSON, 0, 3]
  {
    var buf: seq<Byte> := [PUBLISH, JSON, 0, 1];
    assert FromNetwork(buf, true) == [PUBLISH, JSON, 1, 0];
  }

  /** A payload of 65534 bytes arrives with length 0. */
  lemma LongLengthVanishes()
    ensures var buf: seq<Byte> := [PUBLISH, JSON, 0xfe, 0xff];
            HostLength(buf) == 65534 && HostLength(FromNetwork(ToNetwork(buf, true), true)) == 0
  {
    var buf: seq<Byte> := [PUBLISH, JSON, 0xfe, 0xff];
    assert ToNetwork(buf, true) == [PUBLISH, JSON, 0, 0];
  }

  // ----- The digest -----

  /** With 2^32 - 1 bytes the loop test lets a block through that begins 63 bytes before the end. */
  lemma LoopTestWraps()
    ensures var length: Word, i := 0xffff_ffff, 0xffff_ffc0;
            && Md5.BlockStart(i, 64) && !Md5.TestCannotWrap(length, 64)
            && (i + 64) % Md5.TWO_32 <= length && i + 64 > length
  {
  }

  // ----- Two clients -----

  function Claim(id: EndpointId, token: string): RegisterCommand {
    RegisterCommand(id, 1, true, token, 0)
  }

  function Start(c: Connection, e: Endpoint): seq<Event> {
    [ConnectionReady(c, 0), Registering(c, Claim(7, ""), 7, e, "key")]
  }

  // The state after the first connection has registered under id 7.
  ghost function OneClient(c: Connection, e: Endpoint): State {
    var r := Record(Normal, "key", c, 0, {}, {}, {}, {}, {});
    State({c}, map[c := 7], map[e := r], map[], map[7 := e], map[7 := e], map[], map[], map[])
  }

  lemma OneClientReached(c: Connection, e: Endpoint)
    ensures var s1 := Ready(EMPTY, c, 0);
            && WellFormed(s1) && Possible(EMPTY, Start(c, e)[0]) && Possible(s1, Start(c, e)[1])
            && Next(EMPTY, Start(c, e)[0]) == s1 && Next(s1, Start(c, e)[1]) == OneClient(c, e)
            && Allowed(EMPTY, Start(c, e)[0]) && Allowed(s1, Start(c, e)[1])
  {
    var s1 := Ready(EMPTY, c, 0);
    ReadyWellFormed(EMPTY, c, 0);
    var s2 := Next(s1, Start(c, e)[1]);
    assert s2.pending == map[];
  }

  lemma OneClientAgrees(c: Connection, e: Endpoint)
    ensures Inv(OneClient(c, e))
  {
  }

  lemma OneClientRun(c: Connection, e: Endpoint) returns (r: Run)
    ensures IsRun(r) && Ends(r, OneClient(c, e)) && r.events == Start(c, e)
    ensures IsAllowedRun(r)
  {
    hide Next, WellFormed, Possible, OneClient, Ready, Allowed;
    OneClientReached(c, e);
    r := Run([EMPTY], []);
    WellFormedAtFirst();
    Extends(r, Start(c, e)[0], Ready(EMPTY, c, 0));
    r := Extended(r, Start(c, e)[0], Ready(EMPTY, c, 0));
    Extends(r, Start(c, e)[1], OneClient(c, e));
    r := Extended(r, Start(c, e)[1], OneClient(c, e));
  }

  lemma WellFormedAtFirst()
    ensures WellFormed(EMPTY)
  {
  }

  lemma SecondIdStep(c: Connection, e: Endpoint, f: Endpoint)
    requires e != f
    ensures var s, ev := OneClient(c, e), Registering(c, Claim(8, ""), 8, f, "key");
            WellFormed(s) && Possible(s, ev) && !Inv(Next(s, ev))
  {
    OneClientAgrees(c, e);
    RegistrationExact(OneClient(c, e), Registering(c, Claim(8, ""), 8, f, "key"));
    hide Next, Inv;
  }

  /** A second id over the same connection: the first endpoint no longer has its own id. */
  lemma SecondIdRun(c: Connection, e: Endpoint, f: Endpoint) returns (r: Run)
    requires e != f
    ensures IsRun(r) && r.events == Start(c, e) + [Registering(c, Claim(8, ""), 8, f, "key")]
    ensures |r.states| == 4 && !Inv(r.states[3])
  {
    hide Next, WellFormed, Possible, Inv, OneClient, IsRun;
    var ev := Registering(c, Claim(8, ""), 8, f, "key");
    r := OneClientRun(c, e);
    SecondIdStep(c, e, f);
    Extends(r, ev, Next(OneClient(c, e), ev));
    r := Extended(r, ev, Next(OneClient(c, e), ev));
  }

  // The second client, and the step that takes the id over.
  lemma SecondClient(c: Connection, d: Connection, e: Endpoint)
    requires c.fd != d.fd
    ensures var s := OneClient(c, e);
            WellFormed(s) && Possible(s, ConnectionReady(d, 0)) && Next(s, ConnectionReady(d, 0)) == Ready(s, d, 0)
    ensures var s := Ready(OneClient(c, e), d, 0);
            && WellFormed(s) && Inv(s) && c in s.open && d in s.open && 7 in s.endpoints && s.endpoints[7] == e
            && e in s.store && s.store[e] == Record(Normal, "key", c, 0, {}, {}, {}, {}, {}) && s.store.Keys == {e}
  {
    OneClientAgrees(c, e);
    ReadyKeepsInv(OneClient(c, e), d, 0);
    ReadyWellFormed(OneClient(c, e), d, 0);
    hide Inv;
  }

  lemma TakeoverStep(c: Connection, d: Connection, e: Endpoint, f: Endpoint)
    requires c.fd != d.fd && e != f
    ensures var s, cmd := Ready(OneClient(c, e), d, 0), Claim(7, "key");
            var ev, s' := Registering(d, cmd, 7, f, "new"), Register(s, d, cmd, 7, f, "new");
            && WellFormed(s) && Possible(s, ev) && Next(s, ev) == s'
            && WellFormed(s') && c in s'.open && Next(s', ConnectionClosed(c)) == Closed(s', c)
            && d in Closed(s', c).open && 7 !in Closed(s', c).endpoints && 7 in Closed(s', c).normal
  {
    hide Inv, OneClient, Ready, Register, Closed;
    SecondClient(c, d, e);
    TakeoverLosesEndpoint(Ready(OneClient(c, e), d, 0), d, Claim(7, "key"), 7, f, "new");
  }

  /** A takeover, and then the kicked connection closes: the registered endpoint is gone although its new connection is
      open, and the index of normal endpoints keeps it. */
  lemma TakeoverRun(c: Connection, d: Connection, e: Endpoint, f: Endpoint) returns (r: Run)
    requires c.fd != d.fd && e != f
    ensures IsRun(r)
    ensures r.events == Start(c, e) + [ConnectionReady(d, 0), Registering(d, Claim(7, "key"), 7, f, "new"),
                                       ConnectionClosed(c)]
    ensures |r.states| == 6 && d in r.states[5].open && 7 !in r.states[5].endpoints && 7 in r.states[5].normal
  {
    hide Next, WellFormed, Inv, OneClient, Ready, Register, Closed, IsRun;
    r := OneClientRun(c, e);
    SecondClient(c, d, e);
    TakeoverStep(c, d, e, f);
    var s3 := Ready(OneClient(c, e), d, 0);
    Extends(r, ConnectionReady(d, 0), s3);
    r := Extended(r, ConnectionReady(d, 0), s3);
    var claim, s4 := Registering(d, Claim(7, "key"), 7, f, "new"), Register(s3, d, Claim(7, "key"), 7, f, "new");
    Extends(r, claim, s4);
    r := Extended(r, claim, s4);
    Extends(r, ConnectionClosed(c), Closed(s4, c));
    r := Extended(r, ConnectionClosed(c), Closed(s4, c));
  }
}
