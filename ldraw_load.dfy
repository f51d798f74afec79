/**
 * `loadLDrawGroup`: the promise wrapped around the LDraw loader's callbacks.
 * The loader is not modelled; what it does is given as a trace of the
 * callbacks it makes, and the promise settles once, with the first of them.
 */
module LDrawLoad {
  import opened Wrappers
  import opened Scene
  import opened PreviewUrls

  /** The `add` member of a value the loader hands back: missing or falsy, a function (the value is a scene graph), or some other truthy value. */
  datatype AddMember = NoAdd | AddMethod(graph: Node) | AddNonFunction

  /**
   * A JavaScript value as the callbacks inspect it. `Falsy` is null,
   * undefined or another falsy value, with its `String(...)` text. An
   * `ErrorInstance` passes `instanceof Error`. `Other` is any other value,
   * seen through the members the callbacks read (an empty string stands for
   * a missing or falsy member) and its `String(...)` text.
   */
  datatype Value =
    | Falsy(text: string)
    | ErrorInstance(name: string, message: string)
    | Other(add: AddMember, scene: Value, message: string, stack: string, ctorName: string, text: string)

  /** `Error.prototype.toString`. */
  function ErrorText(name: string, message: string): string {
    if name == "" then message
    else if message == "" then name
    else name + ": " + message
  }

  /** `err?.message || String(err)`, the text `handleError` rejects with. */
  function MessageOf(err: Value): (m: string)
    ensures err.Falsy? ==> m == err.text
    ensures !err.Falsy? && err.message != "" ==> m == err.message
    ensures !err.Falsy? && err.message == "" ==> m == (if err.ErrorInstance? then ErrorText(err.name, "") else err.text)
  {
    match err
    case Falsy(text) => text
    case ErrorInstance(name, message) => if message != "" then message else ErrorText(name, message)
    case Other(_, _, message, _, _, text) => if message != "" then message else text
  }

  /** How a load attempt settles: with a scene graph, or rejected with an error message. */
  datatype Settlement = Fulfilled(group: Node) | Rejected(message: string)

  const NullResultMessage: string := "Loader returned null or undefined result"
  const TypeErrorFallback: string := "TypeError occurred inside LDrawLoader"
  const EmptyTextMessage: string := "Content text is empty"

  /** `g.message || g.stack || g.constructor?.name === 'TypeError'`. */
  predicate LooksLikeError(g: Value)
    requires g.Other?
  {
    g.message != "" || g.stack != "" || g.ctorName == "TypeError"
  }

  /** The graph `handleSuccess` accepts: the value itself when it has an `add` function, its `scene` when `add` is missing and `scene` is an object with one. */
  function AcceptedGraph(g: Value): Option<Node> {
    if !g.Other? then None
    else if g.add.AddMethod? then Some(g.add.graph)
    else if g.add.NoAdd? && g.scene.Other? && g.scene.add.AddMethod? then Some(g.scene.add.graph)
    else None
  }

  /** What `handleSuccess(g)` settles with when nothing has settled yet. */
  function SuccessSettlement(g: Value): (s: Settlement)
    ensures g.ErrorInstance? ==> s == Rejected(g.message)
    ensures g.Falsy? ==> s == Rejected(NullResultMessage)
    ensures s.Fulfilled? <==> AcceptedGraph(g).Some?
    ensures s.Fulfilled? ==> s.group == AcceptedGraph(g).value
    ensures g.Other? && s.Rejected? && LooksLikeError(g) ==>
              s.message == (if g.message != "" then g.message else TypeErrorFallback)
    ensures g.Other? && s.Rejected? && !LooksLikeError(g) ==>
              s.message == "Invalid result type: " + (if g.ctorName != "" then g.ctorName else "object")
  {
    match g
    case ErrorInstance(_, message) => Rejected(message)
    case Falsy(_) => Rejected(NullResultMessage)
    case Other(add, scene, message, stack, ctorName, _) =>
      var finalGroup := if add.NoAdd? && !scene.Falsy? then scene else g;
      if finalGroup.Other? && finalGroup.add.AddMethod? then Fulfilled(finalGroup.add.graph)
      else if LooksLikeError(g) then Rejected(if message != "" then message else TypeErrorFallback)
      else Rejected("Invalid result type: " + (if ctorName != "" then ctorName else "object"))
  }

  /** `isSettled` together with what the promise was settled with. */
  class LoaderPromise {
    var isSettled: bool
    var settlement: Option<Settlement>

    ghost predicate Valid()
      reads this
    {
      isSettled <==> settlement.Some?
    }

    constructor ()
      ensures Valid() && settlement == None
    {
      isSettled := false;
      settlement := None;
    }

    /** `handleSuccess`: ignored once settled. */
    method HandleSuccess(g: Value)
      requires Valid()
      modifies this
      ensures Valid()
      ensures settlement == if old(isSettled) then old(settlement) else Some(SuccessSettlement(g))
    {
      if isSettled {
        return;
      }
      isSettled := true;
      settlement := Some(SuccessSettlement(g));
    }

    /** `handleError`: ignored once settled. */
    method HandleError(err: Value)
      requires Valid()
      modifies this
      ensures Valid()
      ensures settlement == if old(isSettled) then old(settlement) else Some(Rejected(MessageOf(err)))
    {
      if isSettled {
        return;
      }
      isSettled := true;
      settlement := Some(Rejected(MessageOf(err)));
    }
  }

  /** One invocation of a callback by the loader. */
  datatype Callback = OnLoad(result: Value) | OnError(error: Value)

  /**
   * What the loader does when called: the callbacks it makes before the call
   * returns, whether the call throws (and what), the value `parse` returns
   * (ignored for `load`), and the callbacks it makes afterwards.
   */
  datatype LoaderTrace = LoaderTrace(during: seq<Callback>, thrown: Option<Value>, returned: Value, later: seq<Callback>)

  /** The `Error` that an empty model text is rejected with, before the loader is called. */
  const EmptyTextError: Value := ErrorInstance("Error", EmptyTextMessage)

  /**
   * Every callback the promise's handlers receive, in order: the loader's
   * own, a thrown exception (caught and passed to `handleError`), and for
   * `parse` a truthy return value (passed to `handleSuccess`).
   */
  function Calls(resolved: Resolved, t: LoaderTrace): seq<Callback> {
    if resolved.kind == TextContent && resolved.value == "" then [OnError(EmptyTextError)]
    else
      var afterCall :=
        if t.thrown.Some? then [OnError(t.thrown.value)]
        else if resolved.kind == TextContent && !t.returned.Falsy? then [OnLoad(t.returned)]
        else [];
      t.during + afterCall + t.later
  }

  function CallSettlement(c: Callback): Settlement {
    match c
    case OnLoad(v) => SuccessSettlement(v)
    case OnError(e) => Rejected(MessageOf(e))
  }

  /** The promise settles with the first callback it receives, and stays pending if there is none. */
  function Settle(calls: seq<Callback>): (s: Option<Settlement>)
    ensures s.Some? <==> calls != []
  {
    if calls == [] then None else Some(CallSettlement(calls[0]))
  }

  /** Settling is once only: callbacks after the first change nothing. */
  lemma SettleOnce(first: seq<Callback>, more: seq<Callback>)
    requires first != []
    ensures Settle(first + more) == Settle(first)
  {
    assert (first + more)[0] == first[0];
  }

  /** Empty model text is rejected before the loader runs, whatever the loader would have done. */
  lemma EmptyTextRejects(t: LoaderTrace)
    ensures Settle(Calls(Resolved(TextContent, ""), t)) == Some(Rejected(EmptyTextMessage))
  {
  }

  /** A result delivered through `parse`'s callback wins over the value `parse` returns. */
  lemma CallbackBeatsSyncResult(text: string, t: LoaderTrace, v: Value)
    requires text != "" && t.during != [] && t.during[0] == OnLoad(v)
    ensures Settle(Calls(Resolved(TextContent, text), t)) == Some(SuccessSettlement(v))
  {
  }

  /** Hands the callbacks `cbs` to the promise one after the other. */
  method Deliver(p: LoaderPromise, cbs: seq<Callback>)
    requires p.Valid()
    modifies p
    ensures p.Valid()
    ensures p.settlement == if old(p.settlement).Some? then old(p.settlement) else Settle(cbs)
  {
    ghost var before := p.settlement;
    for i := 0 to |cbs|
      invariant p.Valid()
      invariant p.settlement == if before.Some? then before else Settle(cbs[..i])
    {
      assert i > 0 ==> cbs[..i + 1][0] == cbs[..i][0];
      match cbs[i]
      case OnLoad(v) => p.HandleSuccess(v);
      case OnError(e) => p.HandleError(e);
    }
    assert cbs[..|cbs|] == cbs;
  }

  /**
   * `loadLDrawGroup`: the settlement the returned promise reaches, `None`
   * while it stays pending.
   */
  method LoadLDrawGroup(resolved: Resolved, t: LoaderTrace) returns (s: Option<Settlement>)
    ensures s == Settle(Calls(resolved, t))
  {
    var p := new LoaderPromise();
    if resolved.kind == UrlContent {
      // loader.load(value, handleSuccess, undefined, handleError)
      Deliver(p, t.during);
      if t.thrown.Some? {
        p.HandleError(t.thrown.value);
      }
      Deliver(p, t.later);
    } else if resolved.value == "" {
      p.HandleError(EmptyTextError);
    } else {
      // loader.parse(value, partsBase, handleSuccess)
      Deliver(p, t.during);
      if t.thrown.Some? {
        p.HandleError(t.thrown.value);
      } else if !t.returned.Falsy? && !p.isSettled {
        p.HandleSuccess(t.returned);
      }
      Deliver(p, t.later);
    }
    s := p.settlement;
    SettleSplit(Calls(resolved, t), t.during, resolved, t);
  }

  /** The pieces `LoadLDrawGroup` delivers one after another settle like their concatenation. */
  lemma SettleSplit(all: seq<Callback>, during: seq<Callback>, resolved: Resolved, t: LoaderTrace)
    requires all == Calls(resolved, t) && during == t.during
    ensures !(resolved.kind == TextContent && resolved.value == "") && during != [] ==> Settle(all) == Settle(during)
  {
    if !(resolved.kind == TextContent && resolved.value == "") && during != [] {
      assert all[0] == during[0];
    }
  }
}
