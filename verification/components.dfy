/** The terminal UI's component runtime: the message envelope, the effect
    bundle a component operation returns (immediate messages, deferred
    commands, actions), the actions and notification banners, and the helpers
    a parent uses to drive a child component.

    Futures become deferred functions: a command is resolved by applying it
    to the state of the outside world at the moment it runs. */
module Components {
  import opened Wrappers

  /** The outside world a command observes when it finally runs (network
      replies and the like); only its identity matters to the model. */
  type World = nat

  /** `anyhow::Error`, kept as its message. */
  type Failure = string

  /** `ComponentMsg<T>`: an envelope holding exactly one payload. */
  datatype ComponentMsg<T> = ComponentMsg(payload: T) {

    /** `to_owned`: consumes the envelope, yielding its payload; nothing
      else is in it. */
    function ToOwned(): (v: T)
      ensures ComponentMsg(v) == this
    {
      payload
    }

    /** `map`: relabels the payload; mapping never fails. */
    function Map<M>(f: T -> M): (r: ComponentMsg<M>)
      ensures r.ToOwned() == f(ToOwned())
    {
      ComponentMsg(f(payload))
    }
  }

  /** `From<T> for ComponentMsg<T>`. */
  function FromValue<T>(value: T): (r: ComponentMsg<T>)
    ensures r.ToOwned() == value
  {
    ComponentMsg(value)
  }

  /** A deferred command: once run, it yields messages or fails. */
  type Command<T> = World -> Result<seq<ComponentMsg<T>>, Failure>

  /** `Nav` (the navigation target) is defined outside the modelled files;
      a destination is identified by name. */
  type Nav = string

  datatype NotificationKind = Error | Info

  /** A status banner: its text, its kind and its timeout in seconds. */
  datatype Notification = Notification(msg: string, kind: NotificationKind, timeout: nat)

  /** Seconds a banner built by `Notification::error`/`info` stays up. */
  const NotificationTimeout: nat := 5

  /** `Notification::error`: an error banner with the standard timeout. */
  function ErrorNotification(msg: string): (n: Notification)
    ensures n.msg == msg && n.kind == Error && n.timeout == NotificationTimeout
  {
    Notification(msg, Error, NotificationTimeout)
  }

  /** `Notification::info`: an info banner with the standard timeout. */
  function InfoNotification(msg: string): (n: Notification)
    ensures n.msg == msg && n.kind == Info && n.timeout == NotificationTimeout
  {
    Notification(msg, Info, NotificationTimeout)
  }

  /** The two banner constructors differ only in kind: each keeps its text
      recoverable, an error banner is never an info banner, and changing an
      error banner's kind gives the info banner for the same text. */
  lemma NotificationsDifferOnlyInKind(m: string, m': string)
    ensures ErrorNotification(m) == ErrorNotification(m') <==> m == m'
    ensures InfoNotification(m) == InfoNotification(m') <==> m == m'
    ensures ErrorNotification(m) != InfoNotification(m')
    ensures ErrorNotification(m).(kind := Info) == InfoNotification(m)
  {
  }

  /** Cross-cutting effects interpreted by the application driver. A spawned
      background task is an opaque handle: the future it wraps is not
      modelled. `ShowNotification` is the source's `Action::Notification`,
      renamed so as not to clash with the `Notification` constructor. */
  datatype Action =
    | Quit
    | Esc
    | NavTo(nav: Nav)
    | ChangeSheet
    | ShowNotification(notification: Notification)
    | ClearNotification
    | Spawn(task: nat)

  /** `ComponentReturn<T>`: the effect bundle of one component operation. */
  datatype ComponentReturn<T> = ComponentReturn(
    msgs: seq<ComponentMsg<T>>,
    cmds: seq<Command<T>>,
    actions: seq<Action>)

  /** `ComponentReturn::empty`. */
  function Empty<T>(): (r: ComponentReturn<T>)
    ensures |r.msgs| == 0 && |r.cmds| == 0 && |r.actions| == 0
  {
    ComponentReturn([], [], [])
  }

  /** `ComponentReturn::cmd`: a bundle with the single command `c`. */
  function FromCommand<T>(c: Command<T>): (r: ComponentReturn<T>)
    ensures |r.msgs| == 0 && |r.actions| == 0
    ensures |r.cmds| == 1 && forall w :: r.cmds[0](w) == c(w)
  {
    ComponentReturn([], [c], [])
  }

  /** `ComponentReturn::action`: a bundle with the single action `a`. */
  function FromAction<T>(a: Action): (r: ComponentReturn<T>)
    ensures |r.msgs| == 0 && |r.cmds| == 0 && r.actions == [a]
  {
    ComponentReturn([], [], [a])
  }

  /** `From<ComponentMsg<T>> for ComponentReturn<T>`: a single message. */
  function FromMsg<T>(m: ComponentMsg<T>): (r: ComponentReturn<T>)
    ensures r.msgs == [m] && |r.cmds| == 0 && |r.actions| == 0
  {
    ComponentReturn([m], [], [])
  }

  /** Pointwise relabelling of a message list, keeping count and order. */
  function MapMsgs<T, M>(ms: seq<ComponentMsg<T>>, f: T -> M): (r: seq<ComponentMsg<M>>)
    ensures |r| == |ms|
    ensures forall i :: 0 <= i < |ms| ==> r[i].ToOwned() == f(ms[i].ToOwned())
    decreases |ms|
  {
    if |ms| == 0 then [] else [ms[0].Map(f)] + MapMsgs(ms[1..], f)
  }

  /** The command that runs `c` and relabels whatever it yields; failures of
      `c` pass through. The relabelling happens only when the command runs. */
  function MapCommand<T, M>(c: Command<T>, f: T -> M): Command<M> {
    (w: World) =>
      match c(w)
      case Ok(ms) => Ok(MapMsgs(ms, f))
      case Err(e) => Err(e)
  }

  /** `out` is `src` lifted through `f`: messages relabelled pointwise in
      order, each command wrapped so that, whatever the world, it fails with
      the same error or succeeds with its messages relabelled, and the actions
      unchanged. */
  ghost predicate MappedBy<T, M>(out: ComponentReturn<M>, src: ComponentReturn<T>, f: T -> M) {
    && |out.msgs| == |src.msgs|
    && (forall i :: 0 <= i < |src.msgs| ==> out.msgs[i].ToOwned() == f(src.msgs[i].ToOwned()))
    && |out.cmds| == |src.cmds|
    && (forall i, w :: 0 <= i < |src.cmds| && src.cmds[i](w).Err? ==>
          out.cmds[i](w) == Err(src.cmds[i](w).error))
    && (forall i, w :: 0 <= i < |src.cmds| && src.cmds[i](w).Ok? ==>
          out.cmds[i](w).Ok? && out.cmds[i](w).value == MapMsgs(src.cmds[i](w).value, f))
    && out.actions == src.actions
  }

  /** `ComponentReturn::map`: lifts a child's bundle into the parent's
      message type. */
  function MapReturn<T, M>(b: ComponentReturn<T>, f: T -> M): (r: ComponentReturn<M>)
    ensures MappedBy(r, b, f)
  {
    var cmds := seq(|b.cmds|, i requires 0 <= i < |b.cmds| => MapCommand(b.cmds[i], f));
    ComponentReturn(MapMsgs(b.msgs, f), cmds, b.actions)
  }

  /** Relabelling with the identity leaves a message list unchanged. */
  lemma {:induction false} MapMsgsIdentity<T>(ms: seq<ComponentMsg<T>>)
    ensures MapMsgs(ms, (x: T) => x) == ms
    decreases |ms|
  {
    if |ms| > 0 {
      MapMsgsIdentity(ms[1..]);
      assert [ms[0]] + ms[1..] == ms;
    }
  }

  /** Relabelling twice is relabelling once by the composition. */
  lemma {:induction false} MapMsgsCompose<T, M, N>(ms: seq<ComponentMsg<T>>, f: T -> M, g: M -> N)
    ensures MapMsgs(MapMsgs(ms, f), g) == MapMsgs(ms, (x: T) => g(f(x)))
    decreases |ms|
  {
    if |ms| > 0 {
      MapMsgsCompose(ms[1..], f, g);
      assert MapMsgs(ms, f)[1..] == MapMsgs(ms[1..], f);
    }
  }

  /** Relabelling distributes over concatenation: messages produced one after
      another are relabelled one after another. */
  lemma {:induction false} MapMsgsAppend<T, M>(a: seq<ComponentMsg<T>>, b: seq<ComponentMsg<T>>, f: T -> M)
    ensures MapMsgs(a + b, f) == MapMsgs(a, f) + MapMsgs(b, f)
    decreases |a|
  {
    if |a| == 0 {
      assert a + b == b;
    } else {
      var ab := a + b;
      assert ab[0] == a[0];
      assert ab[1..] == a[1..] + b;
      MapMsgsAppend(a[1..], b, f);
      calc {
        MapMsgs(ab, f);
        [a[0].Map(f)] + MapMsgs(a[1..] + b, f);
        [a[0].Map(f)] + (MapMsgs(a[1..], f) + MapMsgs(b, f));
        ([a[0].Map(f)] + MapMsgs(a[1..], f)) + MapMsgs(b, f);
      }
    }
  }

  /** Identity law: mapping a bundle with the identity changes nothing that
      can be observed — the same messages, the same actions, and every command
      resolving exactly as before in every world. */
  lemma MapReturnIdentity<T>(b: ComponentReturn<T>)
    ensures MapReturn(b, (x: T) => x).msgs == b.msgs
    ensures MapReturn(b, (x: T) => x).actions == b.actions
    ensures |MapReturn(b, (x: T) => x).cmds| == |b.cmds|
    ensures forall i, w :: 0 <= i < |b.cmds| ==> MapReturn(b, (x: T) => x).cmds[i](w) == b.cmds[i](w)
  {
    var id := (x: T) => x;
    var r := MapReturn(b, id);
    MapMsgsIdentity(b.msgs);
    forall i, w | 0 <= i < |b.cmds|
      ensures r.cmds[i](w) == b.cmds[i](w)
    {
      if b.cmds[i](w).Ok? {
        MapMsgsIdentity(b.cmds[i](w).value);
      }
    }
  }

  /** Composition law: mapping by `f` and then by `g` is observationally
      mapping once by `g` after `f`, so nested parents can lift a grandchild's
      bundle in one step or in two. */
  lemma MapReturnCompose<T, M, N>(b: ComponentReturn<T>, f: T -> M, g: M -> N)
    ensures MapReturn(MapReturn(b, f), g).msgs == MapReturn(b, (x: T) => g(f(x))).msgs
    ensures MapReturn(MapReturn(b, f), g).actions == b.actions
    ensures |MapReturn(MapReturn(b, f), g).cmds| == |b.cmds|
    ensures forall i, w :: 0 <= i < |b.cmds| ==>
      MapReturn(MapReturn(b, f), g).cmds[i](w) == MapReturn(b, (x: T) => g(f(x))).cmds[i](w)
  {
    var gf := (x: T) => g(f(x));
    var two := MapReturn(MapReturn(b, f), g);
    var one := MapReturn(b, gf);
    MapMsgsCompose(b.msgs, f, g);
    forall i, w | 0 <= i < |b.cmds|
      ensures two.cmds[i](w) == one.cmds[i](w)
    {
      if b.cmds[i](w).Ok? {
        MapMsgsCompose(b.cmds[i](w).value, f, g);
      }
    }
  }

  /** Running commands and relabelling commute: every message that the
      mapped command yields is the relabelling of the message the original
      yields at the same position, and the counts agree. */
  lemma MapRunCommute<T, M>(b: ComponentReturn<T>, f: T -> M, i: nat, w: World)
    requires i < |b.cmds|
    requires b.cmds[i](w).Ok?
    ensures MapReturn(b, f).cmds[i](w).Ok?
    ensures |MapReturn(b, f).cmds[i](w).value| == |b.cmds[i](w).value|
    ensures forall k :: 0 <= k < |b.cmds[i](w).value| ==>
      MapReturn(b, f).cmds[i](w).value[k].ToOwned() == f(b.cmds[i](w).value[k].ToOwned())
  {
  }

  /** Mapping the empty bundle, or a singleton one, keeps its shape. */
  lemma MapReturnSingletons<T, M>(m: ComponentMsg<T>, a: Action, c: Command<T>, f: T -> M)
    ensures var e := MapReturn(Empty<T>(), f); |e.msgs| == 0 && |e.cmds| == 0 && |e.actions| == 0
    ensures var r := MapReturn(FromMsg(m), f);
      r.msgs == [m.Map(f)] && |r.cmds| == 0 && |r.actions| == 0
    ensures var r := MapReturn(FromAction<T>(a), f);
      r.actions == [a] && |r.msgs| == 0 && |r.cmds| == 0
    ensures var r := MapReturn(FromCommand(c), f);
      |r.cmds| == 1 && |r.msgs| == 0 && |r.actions| == 0
  {
  }

  /** The state a component operation leaves behind, with its outcome. */
  datatype Step<S, R> = Step(state: S, result: Result<R, Failure>)

  /** A raw input event; the terminal's event type is not modelled and an
      event is identified by an opaque code. */
  datatype ComponentEvent = Event(code: nat)

  /** The `Component` capabilities a parent can drive, as functions of the
      component's private state `S`. Rendering is not modelled. */
  datatype Component<!S, !P, !M> = Component(
    init: (S, P) -> Step<S, ComponentReturn<M>>,
    update: (S, ComponentMsg<M>) -> Step<S, ComponentReturn<M>>,
    handleEvent: (S, ComponentEvent) -> Step<S, seq<ComponentMsg<M>>>)

  /** The default `init`: nothing changes and nothing is returned. */
  function DefaultInit<S, P, M>(s: S, props: P): (r: Step<S, ComponentReturn<M>>)
    ensures r.state == s && r.result.Ok?
    ensures |r.result.value.msgs| == 0 && |r.result.value.cmds| == 0 && |r.result.value.actions| == 0
  {
    Step(s, Ok(Empty()))
  }

  /** The default `update`: nothing changes and nothing is returned. */
  function DefaultUpdate<S, M>(s: S, msg: ComponentMsg<M>): (r: Step<S, ComponentReturn<M>>)
    ensures r.state == s && r.result.Ok?
    ensures |r.result.value.msgs| == 0 && |r.result.value.cmds| == 0 && |r.result.value.actions| == 0
  {
    Step(s, Ok(Empty()))
  }

  /** The default `handle_event`: no messages. */
  function DefaultHandleEvent<S, M>(s: S, evt: ComponentEvent): (r: Step<S, seq<ComponentMsg<M>>>)
    ensures r.state == s && r.result.Ok? && |r.result.value| == 0
  {
    Step(s, Ok([]))
  }

  /** A component that keeps every default operation (it overrides only
      rendering, which is not modelled). */
  function DefaultsOnly<S, P, M>(): Component<S, P, M> {
    Component(
      (s: S, p: P) => DefaultInit(s, p),
      (s: S, m: ComponentMsg<M>) => DefaultUpdate(s, m),
      (s: S, e: ComponentEvent) => DefaultHandleEvent(s, e))
  }

  /** How a parent's step reports a child's step: the child's new state is
      the only state that changes, a child failure is passed on unchanged,
      and a child bundle is lifted by `mapper`. */
  ghost predicate Forwarded<S, C, M>(r: Step<S, ComponentReturn<M>>, child: Step<S, ComponentReturn<C>>, mapper: C -> M) {
    && r.state == child.state
    && r.result.Ok? == child.result.Ok?
    && (child.result.Err? ==> r.result.error == child.result.error)
    && (child.result.Ok? ==> MappedBy(r.result.value, child.result.value, mapper))
  }

  function LiftStep<S, C, M>(child: Step<S, ComponentReturn<C>>, mapper: C -> M): (r: Step<S, ComponentReturn<M>>)
    ensures Forwarded(r, child, mapper)
  {
    match child.result
    case Ok(b) => Step(child.state, Ok(MapReturn(b, mapper)))
    case Err(e) => Step(child.state, Err(e))
  }

  /** `forward_update`: delivers `msg` to the child and lifts its bundle. */
  function ForwardUpdate<S, P, C, M>(child: Component<S, P, C>, s: S, msg: ComponentMsg<C>, mapper: C -> M): (r: Step<S, ComponentReturn<M>>)
    ensures Forwarded(r, child.update(s, msg), mapper)
  {
    LiftStep(child.update(s, msg), mapper)
  }

  /** `forward_init`: initialises the child with `props` and lifts its bundle. */
  function ForwardInit<S, P, C, M>(child: Component<S, P, C>, s: S, props: P, mapper: C -> M): (r: Step<S, ComponentReturn<M>>)
    ensures Forwarded(r, child.init(s, props), mapper)
  {
    LiftStep(child.init(s, props), mapper)
  }

  /** `forward_event`: lets the child translate `evt` and relabels the
      messages it produces, in order; a child failure passes through. */
  function ForwardEvent<S, P, C, M>(child: Component<S, P, C>, s: S, evt: ComponentEvent, mapper: C -> M): (r: Step<S, seq<ComponentMsg<M>>>)
    ensures r.state == child.handleEvent(s, evt).state
    ensures r.result.Ok? <==> child.handleEvent(s, evt).result.Ok?
    ensures r.result.Err? ==> r.result.error == child.handleEvent(s, evt).result.error
    ensures r.result.Ok? ==>
      && |r.result.value| == |child.handleEvent(s, evt).result.value|
      && forall i :: 0 <= i < |r.result.value| ==>
           r.result.value[i].ToOwned() == mapper(child.handleEvent(s, evt).result.value[i].ToOwned())
  {
    var step := child.handleEvent(s, evt);
    match step.result
    case Ok(ms) => Step(step.state, Ok(MapMsgs(ms, mapper)))
    case Err(e) => Step(step.state, Err(e))
  }

  /** Forwarding to a child that only renders yields an empty bundle and
      leaves the child's state alone. */
  lemma ForwardToDefaultsOnly<S, P, C, M>(s: S, props: P, msg: ComponentMsg<C>, evt: ComponentEvent, mapper: C -> M)
    ensures var r := ForwardInit(DefaultsOnly<S, P, C>(), s, props, mapper);
      r.state == s && r.result.Ok? && |r.result.value.msgs| == 0 && |r.result.value.cmds| == 0 && |r.result.value.actions| == 0
    ensures var r := ForwardUpdate(DefaultsOnly<S, P, C>(), s, msg, mapper);
      r.state == s && r.result.Ok? && |r.result.value.msgs| == 0 && |r.result.value.cmds| == 0 && |r.result.value.actions| == 0
    ensures ForwardEvent(DefaultsOnly<S, P, C>(), s, evt, mapper) == Step(s, Ok([]))
  {
  }
}
