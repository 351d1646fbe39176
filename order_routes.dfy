/**
 * The order routes: each lifecycle endpoint with its ordered middleware
 * chain. What a middleware tests is not modelled — each one is an opaque
 * yes/no (`passes`) — only where it stands in which chain.
 */
module OrderRoutes {
  import opened Wrappers
  import opened Entities
  import opened OrderStatus

  datatype Guard =
    | IsLoggedIn
    | HasRole(role: string)
    | CheckEntityExists(model: string, param: string)
    | CheckOrderOwnership
    | CheckOrderIsPending
    | CheckOrderCanBeSent
    | CheckOrderCanBeDelivered
    | CheckOrderCanBeBackwarded
    | CheckOrderVisible

  datatype Handler = ConfirmHandler | SendHandler | DeliverHandler | ShowHandler | BackwardHandler

  datatype Verb = Get | Patch

  datatype Route = Route(verb: Verb, path: string, guards: seq<Guard>, handler: Handler)

  /** The checks every owner-side transition starts with. */
  function OwnerPrefix(): seq<Guard> {
    [IsLoggedIn, HasRole("owner"), CheckEntityExists("Order", "orderId"), CheckOrderOwnership]
  }

  /** The registrations, in the order they are made; `backward` is registered twice. */
  function Routes(): seq<Route> {
    [ Route(Patch, "/orders/:orderId/confirm", OwnerPrefix() + [CheckOrderIsPending], ConfirmHandler),
      Route(Patch, "/orders/:orderId/send", OwnerPrefix() + [CheckOrderCanBeSent], SendHandler),
      Route(Patch, "/orders/:orderId/deliver", OwnerPrefix() + [CheckOrderCanBeDelivered], DeliverHandler),
      Route(Get, "/orders/:orderId", [IsLoggedIn, CheckEntityExists("Order", "orderId"), CheckOrderVisible], ShowHandler),
      Route(Patch, "/orders/:orderId/backward", OwnerPrefix() + [CheckOrderCanBeBackwarded], BackwardHandler),
      Route(Patch, "/orders/:orderId/backward", OwnerPrefix() + [CheckOrderCanBeBackwarded], BackwardHandler) ]
  }

  /** How far a request gets along a chain: to the handler, or answered by the guard at `index`. */
  datatype Outcome = Reached | StoppedAt(index: nat)

  /** Run the guards in order; the first that does not pass answers the request. */
  function RunChain(guards: seq<Guard>, passes: Guard -> bool): (r: Outcome)
    ensures r.Reached? <==> forall i :: 0 <= i < |guards| ==> passes(guards[i])
    ensures r.StoppedAt? ==> r.index < |guards| && !passes(guards[r.index]) &&
                             forall j :: 0 <= j < r.index ==> passes(guards[j])
  {
    if |guards| == 0 then Reached
    else if !passes(guards[0]) then StoppedAt(0)
    else match RunChain(guards[1..], passes)
      case Reached => Reached
      case StoppedAt(k) => StoppedAt(k + 1)
  }

  /**
   * The first registration for the verb and path handles the request: it
   * either answers from a guard or reaches its handler, which answers, so a
   * later registration of the same path is never consulted.
   */
  function Dispatch(table: seq<Route>, verb: Verb, path: string, passes: Guard -> bool): (r: Option<(Handler, Outcome)>)
    ensures r.None? <==> forall i :: 0 <= i < |table| ==> table[i].verb != verb || table[i].path != path
    ensures r.Some? ==> exists i :: 0 <= i < |table| && table[i].verb == verb && table[i].path == path &&
                                    (forall j :: 0 <= j < i ==> table[j].verb != verb || table[j].path != path) &&
                                    r.value == (table[i].handler, RunChain(table[i].guards, passes))
  {
    if |table| == 0 then None
    else if table[0].verb == verb && table[0].path == path then Some((table[0].handler, RunChain(table[0].guards, passes)))
    else
      var rest := Dispatch(table[1..], verb, path, passes);
      assert forall i :: 1 <= i < |table| ==> table[i] == table[1..][i - 1];
      rest
  }

  /** The handler a transition endpoint reaches, when it reaches one. */
  predicate Reaches(path: string, handler: Handler, passes: Guard -> bool) {
    Dispatch(Routes(), Patch, path, passes) == Some((handler, Reached))
  }

  /** Dispatch picks the first registration that matches. */
  lemma {:induction false} DispatchFirst(table: seq<Route>, i: nat, verb: Verb, path: string, passes: Guard -> bool)
    requires i < |table| && table[i].verb == verb && table[i].path == path
    requires forall j :: 0 <= j < i ==> table[j].verb != verb || table[j].path != path
    ensures Dispatch(table, verb, path, passes) == Some((table[i].handler, RunChain(table[i].guards, passes)))
  {
    if i > 0 {
      assert forall j :: 0 <= j < i - 1 ==> table[1..][j] == table[j + 1];
      DispatchFirst(table[1..], i - 1, verb, path, passes);
    }
  }

  /** An owner-side chain is passed exactly when its four prefix checks and its own state check pass. */
  lemma OwnerChainPasses(last: Guard, passes: Guard -> bool)
    ensures RunChain(OwnerPrefix() + [last], passes).Reached? <==>
              passes(IsLoggedIn) && passes(HasRole("owner")) && passes(CheckEntityExists("Order", "orderId")) &&
              passes(CheckOrderOwnership) && passes(last)
  {
    var g := OwnerPrefix() + [last];
    assert g[0] == IsLoggedIn && g[1] == HasRole("owner") && g[2] == CheckEntityExists("Order", "orderId");
    assert g[3] == CheckOrderOwnership && g[4] == last && |g| == 5;
  }

  /** `confirm` runs only after login, the owner role, the order's existence, its ownership and its being pending. */
  lemma ConfirmChain(passes: Guard -> bool)
    ensures Reaches("/orders/:orderId/confirm", ConfirmHandler, passes) <==>
              passes(IsLoggedIn) && passes(HasRole("owner")) && passes(CheckEntityExists("Order", "orderId")) &&
              passes(CheckOrderOwnership) && passes(CheckOrderIsPending)
  {
    DispatchFirst(Routes(), 0, Patch, "/orders/:orderId/confirm", passes);
    OwnerChainPasses(CheckOrderIsPending, passes);
  }

  /** `send` runs only after the same four checks and checkOrderCanBeSent. */
  lemma SendChain(passes: Guard -> bool)
    ensures Reaches("/orders/:orderId/send", SendHandler, passes) <==>
              passes(IsLoggedIn) && passes(HasRole("owner")) && passes(CheckEntityExists("Order", "orderId")) &&
              passes(CheckOrderOwnership) && passes(CheckOrderCanBeSent)
  {
    DispatchFirst(Routes(), 1, Patch, "/orders/:orderId/send", passes);
    OwnerChainPasses(CheckOrderCanBeSent, passes);
  }

  /** `deliver` runs only after the same four checks and checkOrderCanBeDelivered. */
  lemma DeliverChain(passes: Guard -> bool)
    ensures Reaches("/orders/:orderId/deliver", DeliverHandler, passes) <==>
              passes(IsLoggedIn) && passes(HasRole("owner")) && passes(CheckEntityExists("Order", "orderId")) &&
              passes(CheckOrderOwnership) && passes(CheckOrderCanBeDelivered)
  {
    assert "/orders/:orderId/confirm" != "/orders/:orderId/deliver" by {
      assert "/orders/:orderId/confirm"[17] != "/orders/:orderId/deliver"[17];
    }
    DispatchFirst(Routes(), 2, Patch, "/orders/:orderId/deliver", passes);
    OwnerChainPasses(CheckOrderCanBeDelivered, passes);
  }

  /** `backward` runs only after the same four checks and checkOrderCanBeBackwarded; both registrations are identical. */
  lemma BackwardChain(passes: Guard -> bool)
    ensures Routes()[4] == Routes()[5]
    ensures Reaches("/orders/:orderId/backward", BackwardHandler, passes) <==>
              passes(IsLoggedIn) && passes(HasRole("owner")) && passes(CheckEntityExists("Order", "orderId")) &&
              passes(CheckOrderOwnership) && passes(CheckOrderCanBeBackwarded)
  {
    DispatchFirst(Routes(), 4, Patch, "/orders/:orderId/backward", passes);
    OwnerChainPasses(CheckOrderCanBeBackwarded, passes);
  }

  /** Proof step: the guards `show` is registered with, read off the route table once. */
  lemma ShowGuards()
    ensures Routes()[3].guards == [IsLoggedIn, CheckEntityExists("Order", "orderId"), CheckOrderVisible]
  {
  }

  /** `show` runs after login, the order's existence and its visibility, and needs nothing else. */
  lemma ShowChain(passes: Guard -> bool)
    ensures (Dispatch(Routes(), Get, "/orders/:orderId", passes) == Some((ShowHandler, Reached))) <==>
              passes(IsLoggedIn) && passes(CheckEntityExists("Order", "orderId")) && passes(CheckOrderVisible)
    ensures HasRole("owner") !in Routes()[3].guards && CheckOrderOwnership !in Routes()[3].guards
  {
    ShowGuards();
    var g := Routes()[3].guards;
    assert g[0] == IsLoggedIn && g[1] == CheckEntityExists("Order", "orderId") && g[2] == CheckOrderVisible;
    assert HasRole("owner") !in g && CheckOrderOwnership !in g by {
      assert forall i :: 0 <= i < |g| ==> g[i] != HasRole("owner") && g[i] != CheckOrderOwnership;
    }
    DispatchFirst(Routes(), 3, Get, "/orders/:orderId", passes);
  }

  /**
   * Neither the owner role nor ownership bears on `show`: two judgements
   * that agree on its three guards give the same outcome.
   */
  lemma ShowIgnoresOwnership(passes: Guard -> bool, other: Guard -> bool)
    requires passes(IsLoggedIn) == other(IsLoggedIn)
    requires passes(CheckEntityExists("Order", "orderId")) == other(CheckEntityExists("Order", "orderId"))
    requires passes(CheckOrderVisible) == other(CheckOrderVisible)
    ensures Dispatch(Routes(), Get, "/orders/:orderId", passes) == Dispatch(Routes(), Get, "/orders/:orderId", other)
  {
    var g := [IsLoggedIn, CheckEntityExists("Order", "orderId"), CheckOrderVisible];
    assert RunChain(g, passes) == RunChain(g, other) by {
      assert forall i :: 0 <= i < |g| ==> passes(g[i]) == other(g[i]);
      RunChainAgrees(g, passes, other);
    }
    ShowGuards();
    DispatchFirst(Routes(), 3, Get, "/orders/:orderId", passes);
    DispatchFirst(Routes(), 3, Get, "/orders/:orderId", other);
  }

  /** A chain's outcome depends only on how its own guards are judged. */
  lemma {:induction false} RunChainAgrees(g: seq<Guard>, passes: Guard -> bool, other: Guard -> bool)
    requires forall i :: 0 <= i < |g| ==> passes(g[i]) == other(g[i])
    ensures RunChain(g, passes) == RunChain(g, other)
  {
    if |g| > 0 {
      assert forall i :: 0 <= i < |g[1..]| ==> g[1..][i] == g[i + 1];
      RunChainAgrees(g[1..], passes, other);
    }
  }

  /**
   * Reading each state guard as the status it is named after, a request that
   * reaches a transition's handler moves a well-formed order exactly one step
   * forward and keeps it well-formed.
   */
  lemma GuardedTransitionsAdvance(o: Order, now: int, passes: Guard -> bool)
    requires WellFormed(o)
    requires passes(CheckOrderIsPending) ==> StatusOf(o) == Pending
    requires passes(CheckOrderCanBeSent) ==> StatusOf(o) == InProcess
    requires passes(CheckOrderCanBeDelivered) ==> StatusOf(o) == Sent
    requires o.createdAt <= now
    requires o.startedAt.Some? ==> o.startedAt.value <= now
    requires o.sentAt.Some? ==> o.sentAt.value <= now
    ensures Reaches("/orders/:orderId/confirm", ConfirmHandler, passes) ==>
              StatusOf(o.(startedAt := Some(now))) == InProcess && WellFormed(o.(startedAt := Some(now)))
    ensures Reaches("/orders/:orderId/send", SendHandler, passes) ==>
              StatusOf(o.(sentAt := Some(now))) == Sent && WellFormed(o.(sentAt := Some(now)))
    ensures Reaches("/orders/:orderId/deliver", DeliverHandler, passes) ==>
              StatusOf(o.(deliveredAt := Some(now))) == Delivered && WellFormed(o.(deliveredAt := Some(now)))
  {
    ConfirmChain(passes);
    SendChain(passes);
    DeliverChain(passes);
  }
}
