/** The server's callbacks. Whatever the connections do, the states it goes through are a run of the registry. */
module SwitchServer {
  import opened SwitchTypes
  import opened Entities
  import opened Registry
  import opened Runs
  import opened Context
  import opened Network
  import SwitchService
  import CommandHandler
  import Wire

  class Server {
    const context: SwitchContext
    const handler: CommandHandler.Handler
    const outbox: Outbox
    // The steps taken so far.
    ghost var run: Run

    ghost predicate Valid()
      reads this, context, context.connections, context.objects
    {
      && handler.context == context && handler.outbox == outbox && handler.Valid()
      && IsRun(run) && run.states[|run.events|] == context.View()
    }

    constructor (selfIncluded: bool)
      ensures Valid() && run == Run([EMPTY], []) && context.View() == EMPTY
      ensures fresh(context) && fresh(outbox) && outbox.log == []
    {
      var c := new SwitchContext();
      var o := new Outbox();
      var service := new SwitchService.Service(c, o);
      context, outbox := c, o;
      handler := new CommandHandler.Handler(c, service, o, selfIncluded);
      run := Run([EMPTY], []);
    }

    // `conn` is new, and no open connection has its descriptor.
    method OnConnectionReady(conn: Connection)
      requires Valid() && conn !in context.connections && forall d | d in context.open :: d.fd != conn.fd
      modifies this`run, context
      ensures Valid() && run == Extended(old(run), ConnectionReady(conn, conn.id), context.View())
    {
      hide *;
      Parts();
      ghost var s, ev := context.View(), ConnectionReady(conn, conn.id);
      ReadyIsStep(conn);
      context.InsertPending(conn);
      Extends(run, ev, context.View());
      run := Extended(run, ev, context.View());
      Whole();
    }

    method OnConnectionClosed(conn: Connection)
      requires Valid() && conn in context.open
      modifies this`run, context
      ensures Valid() && run == Extended(old(run), ConnectionClosed(conn), context.View())
    {
      hide *;
      Parts();
      ghost var s, ev := context.View(), ConnectionClosed(conn);
      ClosedIsStep(conn);
      context.RemoveEndpoint(conn.id);
      context.Forget(conn);
      Extends(run, ev, context.View());
      run := Extended(run, ev, context.View());
      Whole();
    }

    method OnMessageRecvd(conn: Connection, buf: array<Byte>, content: CommandHandler.Content, draws: seq<EndpointId>,
                          token: string)
      returns (ghost step: Option<Event>)
      requires Valid() && conn in context.open && buf.Length >= Wire.HEADER_SIZE
      requires Wire.Complete(Wire.FromNetwork(buf[..], handler.selfIncluded))
      requires forall k | 0 <= k < |draws| :: 1 <= draws[k] <= 65535
      requires content.register.id == 0 ==> exists k :: 0 <= k < |draws| && draws[k] !in context.endpoints
      modifies this`run, context, conn, context.objects, outbox, buf
      ensures Valid() && run == if step.Some? then Extended(old(run), step.value, context.View()) else old(run)
      ensures WellFormed(old(context.View()))
      ensures CommandHandler.Answered(old(context.View()), conn, Wire.FromNetwork(old(buf[..]), handler.selfIncluded),
                                      content, step, handler.selfIncluded, old(outbox.log), outbox.log)
    {
      hide *;
      Parts();
      ghost var s := context.View();
      step := handler.HandleCommand(conn, buf, content, draws, token);
      handler.Opened();
      StepMeans(s, context.View(), conn, step);
      if step.Some? {
        Extends(run, step.value, context.View());
        run := Extended(run, step.value, context.View());
      }
      Whole();
    }

    lemma Parts()
      requires Valid()
      ensures handler.Valid() && handler.context == context && handler.outbox == outbox && context.Valid()
      ensures IsRun(run) && Ends(run, context.View()) && WellFormed(context.View())
      ensures handler.service.context == context && handler.service.outbox == outbox
    {
    }

    lemma Whole()
      requires context.Valid() && handler.context == context && handler.outbox == outbox
      requires handler.service.context == context && handler.service.outbox == outbox
      requires IsRun(run) && Ends(run, context.View())
      ensures Valid()
    {
      hide WellFormed;
    }

    lemma ReadyIsStep(conn: Connection)
      requires context.Valid() && conn !in context.connections && forall d | d in context.open :: d.fd != conn.fd
      ensures var s, ev := context.View(), ConnectionReady(conn, conn.id);
              WellFormed(s) && Possible(s, ev) && Next(s, ev) == Ready(s, conn, conn.id)
    {
      hide WellFormed;
    }

    lemma ClosedIsStep(conn: Connection)
      requires context.Valid() && conn in context.open
      ensures var s, ev := context.View(), ConnectionClosed(conn);
              && WellFormed(s) && Possible(s, ev)
              && Next(s, ev) == Registry.RemoveEndpoint(s, conn.id).(open := Registry.RemoveEndpoint(s, conn.id).open - {conn},
                                                                     pending := Registry.RemoveEndpoint(s, conn.id).pending - {conn.fd})
    {
      var s := context.View();
      assert s.ids[conn] == conn.id;
      RemoveFrame(s, conn.id);
      hide WellFormed, Registry.RemoveEndpoint;
    }
  }

  lemma StepMeans(s: State, s': State, c: Connection, step: Option<Event>)
    requires WellFormed(s) && CommandHandler.StepOf(s, s', c, step)
    ensures match step
            case None => s' == s
            case Some(ev) => Possible(s, ev) && s' == Next(s, ev)
  {
    hide WellFormed, Next, Possible;
  }
}
