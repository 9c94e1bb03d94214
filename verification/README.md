# FloatingDock dock window toggle controller, in Dafny

This project models `DockWindowToggleController`, the FloatingDock object that owns
the single floating dock window and launches the applications listed in the dock.

- **Window state.** The controller keeps one optional window controller,
  `dockWindowController`. `toggleDockWindow` opens a new window when none is
  present and closes the present one otherwise. `openDockWindow` stores a newly
  created controller. `closeDockWindow` closes the window and clears the field.
  The field is the datatype `WindowState` (`Closed` or `Open(handle)`). It lives in
  the class `DockWindowToggleController`. A handle counter gives every new window
  controller a handle never used before.
- **Launching.** `launchApplication` splits the entry URL into its containing folder
  and its last path component. It asks the sandbox broker for access to the folder,
  anchoring any prompt to the current window. On a grant it appends the file name to
  the security-scoped folder URL and asks the workspace to open that application.
  A broker or launch error goes to the optional error handler. A successful launch
  calls the optional completion handler and then closes the dock window.
  The broker and the workspace are function-valued parameters, so the model records
  what they were asked as well as what they answered. One launch is described by
  the function `Launch`, which returns the resulting window state and the trace of
  observable events in order. The class method `LaunchApplication` performs the
  same steps one by one and is proved equal to `Launch`.
- **URLs.** A URL is its sequence of path components (module `Urls`). Only the
  three Foundation operations the controller uses are modelled.

The source force-unwraps the entry URL and the scoped URL. A missing entry URL or a
grant without a scoped URL therefore traps rather than reaching the error handler.
The model follows the code: both are preconditions (`CanLaunch`). `LaunchAsWritten`
keeps the force-unwraps as `None` results, and `LaunchTrapsExactly` proves that these
are exactly the cases `CanLaunch` excludes.

Files: `Urls.dfy` (module `Urls`), `DockWindow.dfy` (module `DockWindow`).

## Model

| member | source | states |
|---|---|---|
| Urls.DeletingLastPathComponent | FloatingDock/Sources/Windows/DockWindow/DockWindowToggleController.swift:69-70 | the containing folder followed by the last path component gives back the entry URL; the folder has one component fewer |
| Urls.LastPathComponent | FloatingDock/Sources/Windows/DockWindow/DockWindowToggleController.swift:70 | for a non-root URL the name is its final component, everything before it being the URL's prefix; the root URL yields "" |
| DockWindow.ContainingFolder | FloatingDock/Sources/Windows/DockWindow/DockWindowToggleController.swift:69-70 | the folder handed to the broker followed by the application's file name is the entry URL |
| DockWindow.LaunchTrapsExactly | FloatingDock/Sources/Windows/DockWindow/DockWindowToggleController.swift:69-84 | the launch as written, with `entry.url!`, the optional chain on the scoped URL and `appUrl!` kept, traps exactly when CanLaunch fails (no entry URL, or a grant without a scoped URL), and otherwise ends exactly as Launch |
| Urls.AppendingPathComponent | FloatingDock/Sources/Windows/DockWindow/DockWindowToggleController.swift:81 | appending a name is undone by the split: the folder of the result is the scoped URL and its last component is the name |
| DockWindow.Toggled | FloatingDock/Sources/Windows/DockWindow/DockWindowToggleController.swift:57-63 | a toggle makes a window present exactly when none was, and a window it opens is the new one |
| DockWindow.ToggleParity | FloatingDock/Sources/Windows/DockWindow/DockWindowToggleController.swift:57-63 | presence flips on every toggle: after n toggles it equals the initial presence when n is even and its negation when n is odd |
| DockWindow.ToggleParityFromClosed | FloatingDock/Sources/Windows/DockWindow/DockWindowToggleController.swift:57-63 | from no window, an odd number of toggles leaves a window open and an even number leaves none |
| DockWindow.ScopedAppUrl | FloatingDock/Sources/Windows/DockWindow/DockWindowToggleController.swift:69-81 | the launched URL lies in the granted scoped folder and has the entry's last path component as its name |
| DockWindow.Launch | FloatingDock/Sources/Windows/DockWindow/DockWindowToggleController.swift:68-110 | the first event of every launch is the broker request for the entry's folder, anchored to the current window (`dockWindowController?.window`, line 77: the open window's handle, none when closed); a launch never opens a window, it keeps the old state or closes it |
| DockWindow.LaunchHandlersAtMostOnce | FloatingDock/Sources/Windows/DockWindow/DockWindowToggleController.swift:79-108 | a launch calls at most one handler, never both; with both handlers supplied it calls exactly one |
| DockWindow.LaunchAccessDenied | FloatingDock/Sources/Windows/DockWindow/DockWindowToggleController.swift:105-107 | on broker failure the error handler gets the broker's error exactly when it is supplied; the workspace is not asked, completion does not run, the window is not closed and its state is unchanged |
| DockWindow.LaunchOpensScopedApp | FloatingDock/Sources/Windows/DockWindow/DockWindowToggleController.swift:80-84 | on a grant the second event asks the workspace to open the scoped folder URL plus the entry's file name |
| DockWindow.LaunchFailedReportsError | FloatingDock/Sources/Windows/DockWindow/DockWindowToggleController.swift:89-95 | on launch failure the error handler gets the workspace's error exactly when it is supplied; completion does not run and the window is neither closed nor changed |
| DockWindow.LaunchSucceededClosesWindow | FloatingDock/Sources/Windows/DockWindow/DockWindowToggleController.swift:97-100 | on launch success no error is reported, completion runs exactly when supplied and comes right before the window close, which is the last event, and the window is absent afterwards whatever it was before |
| DockWindow.CompletionOnlyOnSuccess | FloatingDock/Sources/Windows/DockWindow/DockWindowToggleController.swift:79-108 | completion runs only if it was supplied, access was granted and the launch succeeded, and then the window ends absent |
| DockWindow.ScenarioGrantedAndLaunched | FloatingDock/Sources/Windows/DockWindow/DockWindowToggleController.swift:68-110 | for /Apps/Foo.app with access granted and a successful launch from an open window: broker asked for /Apps anchored to that window, Foo.app opened in the scoped folder, completion, then close |
| DockWindow.ScenarioDenied | FloatingDock/Sources/Windows/DockWindow/DockWindowToggleController.swift:105-107 | for /Apps/Foo.app with access denied: broker asked for /Apps, then the error handler with the broker's error, window unchanged |
| DockWindow.NoHandlersNoEvents | FloatingDock/Sources/Windows/DockWindow/DockWindowToggleController.swift:125-127 | a launch without handlers produces no handler call on any outcome |
| DockWindow.DockWindowToggleController.constructor | FloatingDock/Sources/Windows/DockWindow/DockWindowToggleController.swift:37 | a new controller starts with no window |
| DockWindow.DockWindowToggleController.Toggle | FloatingDock/Sources/Windows/DockWindow/DockWindowToggleController.swift:57-63 | the new window field is Toggled of the old one with a new handle: opened with a never-used handle when it was absent, cleared when it was present |
| DockWindow.DockWindowToggleController.OpenDockWindow | FloatingDock/Sources/Windows/DockWindow/DockWindowToggleController.swift:115-118 | the field holds a newly created controller, whose handle is the next unused value of the handle counter and differs from the one held before, so a window is present |
| DockWindow.DockWindowToggleController.CloseDockWindow | FloatingDock/Sources/Windows/DockWindow/DockWindowToggleController.swift:120-123 | the field is cleared; when it was already clear nothing in the controller changes |
| DockWindow.DockWindowToggleController.LaunchApplication | FloatingDock/Sources/Windows/DockWindow/DockWindowToggleController.swift:68-110 | the returned event trace and the new window field are exactly those of Launch on the old window state; no handle is issued |
| DockWindow.DockWindowToggleController.StartApp | FloatingDock/Sources/Windows/DockWindow/DockWindowToggleController.swift:125-127 | a launch with neither handler, matching Launch, whose trace holds no handler call; no handle is issued |

## Left out

- `NotificationCenter` observer registration in the initializer and its removal in `deinit` (lines 42-52): event-bus plumbing. `StartApp` takes the dock entry directly, without the notification's force cast.
- The lazily created `shared` singleton (lines 30-32): process-lifetime glue. The model uses an explicitly constructed controller.
- The `DispatchQueue.main.async` redispatches (lines 83, 91, 97): threading. One launch is modelled as a single sequential run, so another toggle cannot interleave between the broker answer and the launch.
- The internals of `SandboxFileAccess.access`, including prompting, `askIfNecessary` and `persistPermission` (lines 72-78): a foreign library. Its answer is the result of the `AccessBroker` parameter.
- `NSWorkspace.openApplication` and the `activates` configuration (lines 84-89): OS process launch. Its answer is the result of the `Workspace` parameter, and the running-application value is dropped.
- `DockWindowController` construction, `showWindow` and `close`: AppKit UI. A window is only a handle.
- Urls.DeletingLastPathComponent: the root URL (no components) is mapped to itself, and LastPathComponent gives "" for it. Foundation gives "/.." and "/" there. Other Foundation URL behaviour (schemes, trailing slashes, standardisation) is not modelled either.
- Traps on `entry.url!` and `appUrl!` are preconditions (`CanLaunch`), not outcomes. The model says nothing about a launch that would trap.
