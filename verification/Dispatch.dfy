/** What the plugin decides about each context, operation by operation. */
module Dispatch {
  import opened Messages
  import opened Process
  import opened NextHops

  /** The dataplane is asked exactly for the contexts that concern it, and for what they ask; the others
      are returned at once, as failures if their operation is not listed and as successes if it is; and
      the kernel is spared exactly the routes of VRFs other than the default one. */
  lemma PlanIsSound(c: Ctx)
    ensures match PlanFor(c).action
            case Answer(r) =>
              !ConcernsDataplane(c) && r != HhQueued && HhRetToZebra(r) == if c.op == Unlisted then Failure else Success
            case Send(op, obj) =>
              ConcernsDataplane(c) && Suits(op, obj, c)
    ensures PlanFor(c).skipKernel == SparesKernel(c)
  {
    hide IsSelection, Selected;
    SelectedIsSelection(c.hops);
  }

  /** A context is asked for with Add, Del or Update. */
  lemma SuitableOps(op: RpcOp, obj: Object, c: Ctx)
    requires Suits(op, obj, c)
    ensures op in {Add, Del, Update}
  {
    hide IsSelection;
  }
}
