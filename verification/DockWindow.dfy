/** The dock window toggle controller: a single optional window controller that is
    opened and closed on demand, and the launch pipeline that asks the sandbox broker
    for access to an application's folder, opens the application and reports the
    outcome to optional handlers, closing the dock window after a successful launch. */
module DockWindow {
  import opened Urls

  datatype Option<T> = None | Some(value: T)

  /** Identity of one `DockWindowController` instance; a new one gets a new handle. */
  type Handle = nat

  /** The `dockWindowController` field: absent (nil) or holding one controller. */
  datatype WindowState = Closed | Open(handle: Handle)

  /** An error value produced by the sandbox broker or by the workspace. */
  datatype Failure = Failure(description: string)

  /** A dock entry; its URL is optional, as in the source. */
  datatype DockEntry = DockEntry(url: Option<Url>)

  /** Outcome of `SandboxFileAccess.access`: a grant, whose security-scoped URL may
      be missing, or a failure. */
  datatype AccessResult = Granted(securityScopedUrl: Option<Url>) | Denied(err: Failure)

  /** Outcome of `NSWorkspace.openApplication`: a running application or an error. */
  datatype LaunchResult = Launched | LaunchFailed(err: Failure)

  /** The sandbox broker, given the folder and the window to anchor its prompt to. */
  type AccessBroker = (Url, Option<Handle>) -> AccessResult

  /** The workspace's application launcher, given the application URL. */
  type Workspace = Url -> LaunchResult

  /** What one launch makes observable, in order. */
  datatype Event =
    | AccessRequested(folder: Url, anchor: Option<Handle>)  // call to the broker
    | OpenApplication(appUrl: Url)                          // call to the workspace
    | Completion                                            // completion handler ran
    | ErrorReported(err: Failure)                           // error handler ran
    | CloseWindow                                           // closeDockWindow ran

  /** The end state of one launch: the window field and the events, in order. */
  datatype LaunchRun = LaunchRun(window: WindowState, trace: seq<Event>)

  predicate IsHandlerEvent(e: Event)
  {
    e.Completion? || e.ErrorReported?
  }

  /** How many handler calls a trace holds. */
  function HandlerEvents(t: seq<Event>): nat
  {
    if t == [] then 0 else (if IsHandlerEvent(t[0]) then 1 else 0) + HandlerEvents(t[1..])
  }

  /** Handler calls add up over consecutive parts of a trace. */
  lemma {:induction false} HandlerEventsAppend(a: seq<Event>, b: seq<Event>)
    ensures HandlerEvents(a + b) == HandlerEvents(a) + HandlerEvents(b)
  {
    if a != [] {
      assert (a + b)[1..] == a[1..] + b;
      HandlerEventsAppend(a[1..], b);
    } else {
      assert a + b == b;
    }
  }

  /** A trace holds no handler call exactly when HandlerEvents is zero. */
  lemma {:induction false} HandlerEventsZero(t: seq<Event>)
    ensures HandlerEvents(t) == 0 <==> forall e :: e in t ==> !IsHandlerEvent(e)
  {
    if t != [] {
      HandlerEventsZero(t[1..]);
      assert t == [t[0]] + t[1..];
    }
  }

  /** The window the broker anchors its prompt to: `dockWindowController?.window`. */
  function Anchor(w: WindowState): (a: Option<Handle>)
    ensures a.Some? <==> w.Open?
    ensures w.Open? ==> a.value == w.handle
  {
    match w
    case Closed => None
    case Open(h) => Some(h)
  }

  /** `toggleDockWindow`: opens a controller with handle `newHandle` when none is
      present, and closes the present one otherwise. */
  function Toggled(w: WindowState, newHandle: Handle): (r: WindowState)
    ensures r.Open? <==> w.Closed?
    ensures r.Open? ==> r.handle == newHandle
  {
    if w == Closed then Open(newHandle) else Closed
  }

  /** The handle counter after one toggle: advanced only by an open. */
  function NextAfterToggle(w: WindowState, next: Handle): Handle
  {
    if w == Closed then next + 1 else next
  }

  /** The window after `n` toggles in a row, new handles drawn from `next` on. */
  function ToggledTimes(w: WindowState, next: Handle, n: nat): WindowState
    decreases n
  {
    if n == 0 then w else ToggledTimes(Toggled(w, next), NextAfterToggle(w, next), n - 1)
  }

  /** Presence flips on every toggle: after `n` toggles the window is present exactly
      when it was present before and `n` is even, or absent before and `n` is odd. */
  lemma {:induction false} ToggleParity(w: WindowState, next: Handle, n: nat)
    decreases n
    ensures ToggledTimes(w, next, n).Open? <==> (w.Open? <==> n % 2 == 0)
  {
    if n > 0 {
      ToggleParity(Toggled(w, next), NextAfterToggle(w, next), n - 1);
    }
  }

  /** Starting from no window, an odd number of toggles leaves one open and an even
      number leaves none. */
  lemma ToggleParityFromClosed(next: Handle, n: nat)
    ensures ToggledTimes(Closed, next, n).Open? <==> n % 2 == 1
  {
    ToggleParity(Closed, next, n);
  }

  /** The folder handed to the broker: the entry URL minus its last component. */
  function ContainingFolder(entry: DockEntry): (folder: Url)
    requires entry.url.Some?
    ensures |entry.url.value| > 0 ==> folder + [AppFilename(entry)] == entry.url.value
  {
    DeletingLastPathComponent(entry.url.value)
  }

  /** The application's file name: the entry URL's last component. */
  function AppFilename(entry: DockEntry): string
    requires entry.url.Some?
  {
    LastPathComponent(entry.url.value)
  }

  /** What the broker answers for this entry while the window is `w`. */
  function BrokerAnswer(entry: DockEntry, broker: AccessBroker, w: WindowState): AccessResult
    requires entry.url.Some?
  {
    broker(ContainingFolder(entry), Anchor(w))
  }

  /** The conditions under which `launchApplication` does not trap: the entry has a
      URL (`entry.url!`) and a grant carries a scoped URL (`appUrl!`).
      LaunchTrapsExactly relates it to the run as written. */
  predicate CanLaunch(entry: DockEntry, broker: AccessBroker, w: WindowState)
  {
    entry.url.Some? &&
    (BrokerAnswer(entry, broker, w).Granted? ==> BrokerAnswer(entry, broker, w).securityScopedUrl.Some?)
  }

  /** The application URL launched after a grant: the scoped folder plus the file name. */
  function ScopedAppUrl(entry: DockEntry, scoped: Url): (u: Url)
    requires entry.url.Some?
    ensures DeletingLastPathComponent(u) == scoped
    ensures LastPathComponent(u) == LastPathComponent(entry.url.value)
  {
    AppendingPathComponent(scoped, AppFilename(entry))
  }

  /** `launchApplication(from:completion:error:)` with the window initially `w`, taken
      as one sequential run. `completion` and `error` say which handlers are supplied.
      The lemmas after it state how each outcome is routed. */
  function Launch(entry: DockEntry, completion: bool, error: bool,
                  broker: AccessBroker, workspace: Workspace, w: WindowState): (r: LaunchRun)
    requires CanLaunch(entry, broker, w)
    // the broker is asked first, for the containing folder, anchored to the current window
    ensures |r.trace| > 0 && r.trace[0] == AccessRequested(ContainingFolder(entry), Anchor(w))
    // a launch never opens a window: it keeps the old one or closes it
    ensures r.window == w || r.window == Closed
  {
    var request := [AccessRequested(ContainingFolder(entry), Anchor(w))];
    match BrokerAnswer(entry, broker, w)
    case Denied(err) =>
      LaunchRun(w, request + if error then [ErrorReported(err)] else [])
    case Granted(scoped) =>
      var appUrl := ScopedAppUrl(entry, scoped.value);
      var sent := request + [OpenApplication(appUrl)];
      match workspace(appUrl)
      case LaunchFailed(err) =>
        LaunchRun(w, sent + if error then [ErrorReported(err)] else [])
      case Launched =>
        LaunchRun(Closed, sent + (if completion then [Completion] else []) + [CloseWindow])
  }

  /** `launchApplication` step by step as written, with every force-unwrap kept: `None`
      is a trap. `entry.url!` (lines 69-70) traps on a missing URL; the optional chain
      `securityScopedURL?.appendingPathComponent` (line 81) gives no application URL
      for a grant without a scoped URL, and `appUrl!` (line 84) then traps. */
  function LaunchAsWritten(entry: DockEntry, completion: bool, error: bool,
                           broker: AccessBroker, workspace: Workspace, w: WindowState): Option<LaunchRun>
  {
    match entry.url
    case None => None
    case Some(url) =>
      var containingFolderUrl := DeletingLastPathComponent(url);
      var appFilename := LastPathComponent(url);
      var request := AccessRequested(containingFolderUrl, Anchor(w));
      match broker(containingFolderUrl, Anchor(w))
      case Denied(err) =>
        Some(LaunchRun(w, [request] + if error then [ErrorReported(err)] else []))
      case Granted(scoped) =>
        var appUrl := match scoped
                      case None => None
                      case Some(folder) => Some(AppendingPathComponent(folder, appFilename));
        match appUrl
        case None => None
        case Some(app) =>
          match workspace(app)
          case LaunchFailed(err) =>
            Some(LaunchRun(w, [request, OpenApplication(app)] + if error then [ErrorReported(err)] else []))
          case Launched =>
            Some(LaunchRun(Closed, [request, OpenApplication(app)] + (if completion then [Completion] else []) + [CloseWindow]))
  }

  /** The run as written traps exactly when CanLaunch fails, and otherwise is Launch. */
  lemma LaunchTrapsExactly(entry: DockEntry, completion: bool, error: bool,
                           broker: AccessBroker, workspace: Workspace, w: WindowState)
    ensures CanLaunch(entry, broker, w) <==> LaunchAsWritten(entry, completion, error, broker, workspace, w).Some?
    ensures CanLaunch(entry, broker, w) ==>
              LaunchAsWritten(entry, completion, error, broker, workspace, w)
                == Some(Launch(entry, completion, error, broker, workspace, w))
  {
    if CanLaunch(entry, broker, w) && BrokerAnswer(entry, broker, w).Granted? {
      var request := [AccessRequested(ContainingFolder(entry), Anchor(w))];
      var app := ScopedAppUrl(entry, BrokerAnswer(entry, broker, w).securityScopedUrl.value);
      assert request + [OpenApplication(app)] == [request[0], OpenApplication(app)];
    }
  }

  /** The application URL the workspace is asked to open after a grant. */
  function GrantedAppUrl(entry: DockEntry, broker: AccessBroker, w: WindowState): Url
    requires CanLaunch(entry, broker, w)
    requires BrokerAnswer(entry, broker, w).Granted?
  {
    ScopedAppUrl(entry, BrokerAnswer(entry, broker, w).securityScopedUrl.value)
  }

  /** Never more than one handler call per launch, and exactly one when both handlers
      are supplied. */
  lemma LaunchHandlersAtMostOnce(entry: DockEntry, completion: bool, error: bool,
                                 broker: AccessBroker, workspace: Workspace, w: WindowState)
    requires CanLaunch(entry, broker, w)
    ensures HandlerEvents(Launch(entry, completion, error, broker, workspace, w).trace) <= 1
    ensures completion && error ==> HandlerEvents(Launch(entry, completion, error, broker, workspace, w).trace) == 1
  {
    var request := [AccessRequested(ContainingFolder(entry), Anchor(w))];
    assert HandlerEvents(request) == 0 by { HandlerEventsZero(request); }
    match BrokerAnswer(entry, broker, w)
    case Denied(err) =>
      var reported := if error then [ErrorReported(err)] else [];
      HandlerEventsAppend(request, reported);
      assert HandlerEvents(reported) == (if error then 1 else 0) by { HandlerEventsZero(reported); }
    case Granted(scoped) =>
      var appUrl := ScopedAppUrl(entry, scoped.value);
      var sent := request + [OpenApplication(appUrl)];
      HandlerEventsAppend(request, [OpenApplication(appUrl)]);
      assert HandlerEvents([OpenApplication(appUrl)]) == 0;
      match workspace(appUrl)
      case LaunchFailed(err) =>
        var reported := if error then [ErrorReported(err)] else [];
        HandlerEventsAppend(sent, reported);
      case Launched =>
        var completed := if completion then [Completion] else [];
        HandlerEventsAppend(sent, completed);
        HandlerEventsAppend(sent + completed, [CloseWindow]);
        assert HandlerEvents([CloseWindow]) == 0;
  }

  /** Broker failure: the error handler, if supplied, gets the broker's error; the
      workspace is never asked, completion never runs and the window is untouched. */
  lemma LaunchAccessDenied(entry: DockEntry, completion: bool, error: bool,
                           broker: AccessBroker, workspace: Workspace, w: WindowState)
    requires CanLaunch(entry, broker, w)
    requires BrokerAnswer(entry, broker, w).Denied?
    ensures Launch(entry, completion, error, broker, workspace, w).window == w
    ensures forall e :: e in Launch(entry, completion, error, broker, workspace, w).trace ==>
              !e.OpenApplication? && !e.Completion? && !e.CloseWindow?
    ensures error <==>
              ErrorReported(BrokerAnswer(entry, broker, w).err) in Launch(entry, completion, error, broker, workspace, w).trace
  {
  }

  /** After a grant the workspace is asked to open the scoped folder plus the entry's
      file name, right after the broker request. */
  lemma LaunchOpensScopedApp(entry: DockEntry, completion: bool, error: bool,
                             broker: AccessBroker, workspace: Workspace, w: WindowState)
    requires CanLaunch(entry, broker, w)
    requires BrokerAnswer(entry, broker, w).Granted?
    ensures |Launch(entry, completion, error, broker, workspace, w).trace| >= 2
    ensures Launch(entry, completion, error, broker, workspace, w).trace[1] == OpenApplication(GrantedAppUrl(entry, broker, w))
    ensures DeletingLastPathComponent(GrantedAppUrl(entry, broker, w)) == BrokerAnswer(entry, broker, w).securityScopedUrl.value
    ensures LastPathComponent(GrantedAppUrl(entry, broker, w)) == LastPathComponent(entry.url.value)
  {
  }

  /** Launch failure: the error handler, if supplied, gets the workspace's error;
      completion never runs and the window is untouched. */
  lemma LaunchFailedReportsError(entry: DockEntry, completion: bool, error: bool,
                                 broker: AccessBroker, workspace: Workspace, w: WindowState)
    requires CanLaunch(entry, broker, w)
    requires BrokerAnswer(entry, broker, w).Granted?
    requires workspace(GrantedAppUrl(entry, broker, w)).LaunchFailed?
    ensures Launch(entry, completion, error, broker, workspace, w).window == w
    ensures forall e :: e in Launch(entry, completion, error, broker, workspace, w).trace ==>
              !e.Completion? && !e.CloseWindow?
    ensures error <==>
              ErrorReported(workspace(GrantedAppUrl(entry, broker, w)).err) in Launch(entry, completion, error, broker, workspace, w).trace
  {
  }

  /** Launch success: completion, if supplied, runs and is followed by closing the
      window, which is absent afterwards whatever it was before; no error is reported. */
  lemma LaunchSucceededClosesWindow(entry: DockEntry, completion: bool, error: bool,
                                    broker: AccessBroker, workspace: Workspace, w: WindowState)
    requires CanLaunch(entry, broker, w)
    requires BrokerAnswer(entry, broker, w).Granted?
    requires workspace(GrantedAppUrl(entry, broker, w)).Launched?
    ensures Launch(entry, completion, error, broker, workspace, w).window == Closed
    ensures var t := Launch(entry, completion, error, broker, workspace, w).trace;
              t[|t| - 1] == CloseWindow &&
              (forall e :: e in t ==> !e.ErrorReported?) &&
              (Completion in t <==> completion) &&
              (completion ==> |t| >= 2 && t[|t| - 2] == Completion)
  {
  }

  /** A launch that is not granted, or whose launch fails, never calls completion. */
  lemma CompletionOnlyOnSuccess(entry: DockEntry, completion: bool, error: bool,
                                broker: AccessBroker, workspace: Workspace, w: WindowState)
    requires CanLaunch(entry, broker, w)
    ensures Completion in Launch(entry, completion, error, broker, workspace, w).trace ==>
              completion &&
              BrokerAnswer(entry, broker, w).Granted? &&
              workspace(ScopedAppUrl(entry, BrokerAnswer(entry, broker, w).securityScopedUrl.value)).Launched? &&
              Launch(entry, completion, error, broker, workspace, w).window == Closed
  {
  }

  /** Scenario: "/Apps/Foo.app", access granted under a scoped folder and the launch
      succeeds with the window open: completion runs once and the window closes. */
  lemma ScenarioGrantedAndLaunched(scoped: Url, h: Handle)
    ensures Launch(DockEntry(Some(["Apps", "Foo.app"])), true, true,
                   (folder: Url, anchor: Option<Handle>) => Granted(Some(scoped)),
                   (app: Url) => Launched, Open(h))
         == LaunchRun(Closed, [AccessRequested(["Apps"], Some(h)), OpenApplication(scoped + ["Foo.app"]),
                               Completion, CloseWindow])
  {
    var entry := DockEntry(Some(["Apps", "Foo.app"]));
    assert ContainingFolder(entry) == ["Apps"];
    assert AppFilename(entry) == "Foo.app";
  }

  /** Scenario: "/Apps/Foo.app" and the broker denies access: the error handler gets
      the broker's error once and the window is left as it was. */
  lemma ScenarioDenied(err: Failure, w: WindowState)
    ensures Launch(DockEntry(Some(["Apps", "Foo.app"])), true, true,
                   (folder: Url, anchor: Option<Handle>) => Denied(err),
                   (app: Url) => Launched, w)
         == LaunchRun(w, [AccessRequested(["Apps"], Anchor(w)), ErrorReported(err)])
  {
    assert ContainingFolder(DockEntry(Some(["Apps", "Foo.app"]))) == ["Apps"];
  }

  /** The controller object; its one piece of state is the optional window controller. */
  class DockWindowToggleController {
    var dockWindowController: WindowState
    /** Handle the next `DockWindowController()` will get; all earlier ones are used. */
    var nextHandle: Handle

    ghost predicate Valid()
      reads this
    {
      dockWindowController.Open? ==> dockWindowController.handle < nextHandle
    }

    constructor ()
      ensures Valid()
      ensures dockWindowController == Closed
    {
      dockWindowController := Closed;
      nextHandle := 0;
    }

    /** `toggleDockWindow`: opens when no window is present, closes otherwise. */
    method Toggle()
      requires Valid()
      modifies this
      ensures Valid()
      ensures dockWindowController == Toggled(old(dockWindowController), old(nextHandle))
      ensures nextHandle == NextAfterToggle(old(dockWindowController), old(nextHandle))
    {
      if dockWindowController == Closed {
        OpenDockWindow();
      } else {
        CloseDockWindow();
      }
    }

    /** `openDockWindow`: stores a newly created controller, whatever was there. */
    method OpenDockWindow()
      requires Valid()
      modifies this
      ensures Valid()
      ensures dockWindowController == Open(old(nextHandle))
      ensures nextHandle == old(nextHandle) + 1
      ensures old(dockWindowController).Open? ==> dockWindowController.handle != old(dockWindowController).handle
    {
      dockWindowController := Open(nextHandle);
      nextHandle := nextHandle + 1;
    }

    /** `closeDockWindow`: leaves no window; with none present nothing changes. */
    method CloseDockWindow()
      requires Valid()
      modifies this
      ensures Valid()
      ensures dockWindowController == Closed
      ensures nextHandle == old(nextHandle)
      ensures old(dockWindowController) == Closed ==> unchanged(this)
    {
      dockWindowController := Closed;
    }

    /** `launchApplication(from:completion:error:)`, as one sequential run whose broker
        and workspace answers are given; returns the observable events in order. */
    method LaunchApplication(entry: DockEntry, completion: bool, error: bool,
                             broker: AccessBroker, workspace: Workspace) returns (trace: seq<Event>)
      requires Valid()
      requires CanLaunch(entry, broker, dockWindowController)
      modifies this
      ensures Valid()
      ensures LaunchRun(dockWindowController, trace)
           == Launch(entry, completion, error, broker, workspace, old(dockWindowController))
      ensures nextHandle == old(nextHandle)
    {
      var url := entry.url.value;
      var containingFolderUrl := DeletingLastPathComponent(url);
      var appFilename := LastPathComponent(url);
      var anchor := Anchor(dockWindowController);
      trace := [AccessRequested(containingFolderUrl, anchor)];
      var access := broker(containingFolderUrl, anchor);
      match access {
        case Granted(scoped) =>
          var appUrl := AppendingPathComponent(scoped.value, appFilename);
          trace := trace + [OpenApplication(appUrl)];
          var launched := workspace(appUrl);
          match launched {
            case LaunchFailed(err) =>
              if error {
                trace := trace + [ErrorReported(err)];
              }
            case Launched =>
              if completion {
                trace := trace + [Completion];
              }
              CloseDockWindow();
              trace := trace + [CloseWindow];
          }
        case Denied(err) =>
          if error {
            trace := trace + [ErrorReported(err)];
          }
      }
    }

    /** `startApp(notification:)`: a launch with neither handler, so no handler runs. */
    method StartApp(entry: DockEntry, broker: AccessBroker, workspace: Workspace) returns (trace: seq<Event>)
      requires Valid()
      requires CanLaunch(entry, broker, dockWindowController)
      modifies this
      ensures Valid()
      ensures LaunchRun(dockWindowController, trace)
           == Launch(entry, false, false, broker, workspace, old(dockWindowController))
      ensures nextHandle == old(nextHandle)
      ensures forall e :: e in trace ==> !IsHandlerEvent(e)
    {
      trace := LaunchApplication(entry, false, false, broker, workspace);
      NoHandlersNoEvents(entry, broker, workspace, old(dockWindowController));
    }
  }

  /** Without handlers a launch shows no handler call at all. */
  lemma NoHandlersNoEvents(entry: DockEntry, broker: AccessBroker, workspace: Workspace, w: WindowState)
    requires CanLaunch(entry, broker, w)
    ensures forall e :: e in Launch(entry, false, false, broker, workspace, w).trace ==> !IsHandlerEvent(e)
  {
  }
}
