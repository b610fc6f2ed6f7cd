# A verified model of the Wayland-to-panel service

The service speaks Wayland to its clients and hands their surfaces to panel shells in a 3D scene. This
project models the parts of it that keep state across tasks, clients and processes, and proves what they
keep in every run.

Two forms appear side by side. Where the source changes an object step by step, a class has the same fields
and its methods have the same branches and loops; each method is proved against a function of the old state.
Where tasks interleave, a module has a `World`, a `Step` for every locked region, atomic operation or remote
call, `Enabled` and `Next`, and theorems over every reachable world. Anything the service cannot control (a
socket write, a remote call, a Vulkan call, `fstat`, whether a weak reference can still be upgraded, the
iteration order of a hash table) is a parameter of a step or an arbitrary choice. Fields that only record the
past are called histories.

## Modules

- `SurfaceGraph`: parents and children held by weak references, one half-written link at a time. The two ends
  agree in every run, a parent is for life, and a link keeps the graph a forest exactly when it makes no surface
  its own ancestor. `get_subsurface` does not check that.
- `SurfaceWalk`: the three recursive walks as one recursive method over a forest, each surface exactly once, and
  the rule by which the synchronized walk enters children against the protocol's recursive rule.
- `ConcurrentWalk`: a submit walk as a stack of frames, interleaved with linking and dying surfaces.
- `CommitState`: the pending, applied and current stages, the manager that prunes and updates them, and the proof
  that they refine a double buffer.
- `FrameCallbacks`: the six places of a frame callback, frame tasks and the dispatch loop interleaved.
- `BufferRelease`: release points, handlers, waiters, the two submit slots of a surface, reapplying and the peer,
  in 22 kinds of step. `ReleaseTiming` says when a release may be told: no point is signalled while the peer holds
  it, only signals move a timeline, and no release is told early or twice. `BufferCalls` has the calls themselves
  and ties an uninterrupted `update` to the steps.
- `Clipboard`: the stored selection, the broadcast, and offers and paste requests between clients.
  `ClipboardRequests` defines what is stored, broadcast, offered and asked for from a run's requests alone, and
  proves that every run keeps to it. `ClipboardCalls` has its two loops.
- `Keyboard` and `Pointer`: event streams from which a client rebuilds what the server holds.
- `PanelChildren`: the table of child surfaces, the panel shell that mirrors it, and backends that come and go.
- `Subsurface`: how a committed place reaches that table through the handlers a sub-surface registers.
  `SubsurfaceRequests` says the same of the positions, buffers and siblings that were asked for.
- `ShmCopy`: the check made when a buffer is created and the copy it protects. `UploadQueue`: the upload thread.
- `DmabufParams`: assembling a dmabuf and choosing its encoding. `FormatTable`: the format table and its indices.
- `Positioner`: popup placement in 32-bit arithmetic, and the requests that fill a positioner.
- `NativeBytes` and `Wrappers` are shared helpers.

## Where the code and its documentation disagree

The model follows the code.

- The hook that should keep a synchronized sub-surface's state back answers no on both branches
  (`src/util.rs:118-124`), so every commit reaches `current` at once. That is why three stages refine two.
- A parent is never checked for being a descendant (`src/protocols/core/subcompositor.rs:36-73`). Forests are
  proved for clients that keep to the protocol, with the exact condition.
- A desynchronized sub-surface counts as synchronized whenever its parent is a sub-surface, where the protocol asks
  whether that parent is effectively synchronized in turn (`src/protocols/core/subcompositor.rs:122-135`).
  `SurfaceWalk.CodeFollowsRuleIff` and `SurfaceWalk.WalkFollowsRuleIff` say exactly when the two agree.
- `set_offset` adds to the offset and a new anchor rectangle clears it, `set_size` makes a positioner reactive and
  `set_reactive` does nothing (`src/protocols/xdg/positioner.rs:158-240`); xdg-shell has `set_offset` replace the
  offset and `set_reactive` make it reactive. `Positioner.OffsetIsReplacedIff` and `Positioner.ReactiveIffSized`
  say exactly when the two agree.
- A second `wl_subsurface` for one surface draws a new child id, but the surface keeps its first one; the backend
  only warns (`src/protocols/xdg/backend.rs:195-197`). `PanelChildren.AddKeepsMirrorIff` has the exact condition.
- The z-order of a child is stored but never told to the shell after its creation
  (`src/protocols/xdg/backend.rs:223-239`). `PanelChildren.ShellKnowsAllIff` says exactly when the shell has it right.
- Switching the panel shell starts with an empty table (`src/protocols/xdg/toplevel.rs:65-71`), and a sub-surface whose
  handler has added unregisters it (`src/protocols/core/subcompositor.rs:169-170`), so it is not listed in the new
  shell. `Subsurface.CommitListsIff` and `Subsurface.ReplacedPanelNeverListsIt` say exactly when it is.
- A plane whose `fstat` fails is taken to be in the same file as the others
  (`src/protocols/dmabuf/buffer_backing.rs:47-59`).
- A duplicate plane index is reported as a missing object (`src/protocols/dmabuf/buffer_params.rs:78-85`).
- The clipboard stores a selection and broadcasts it under different locks
  (`src/protocols/core/data_device.rs:179-195`), so overlapping requests may leave devices on a selection that is not
  the stored one, and clearing tells no client (`src/protocols/core/data_device.rs:174-178`).
  `Clipboard.DeviceAgreesIff`, `Clipboard.LogEndsInTheStoredIff` and `Clipboard.ClearedAgreesIff` say exactly when
  a device agrees, and `Clipboard.DisagreesUntilStored` how long it does not.
- Pressed keys are kept by object id (`src/protocols/core/keyboard.rs:94`), so a surface that reuses an id
  inherits them, and the client is told so. `Keyboard.InheritsIff` says for which keys.

## Model

| member | source | states |
|---|---|---|
| SurfaceGraph.StepKeepsInv | src/protocols/core/surface.rs:381-389 | The two ends of every parent link agree after every step, except for the one link that is half written |
| SurfaceGraph.ParentForLife | src/protocols/core/surface.rs:386-388 | In any run a surface that has a parent keeps that parent |
| SurfaceGraph.ChildrenAreTheSurfacesWithThatParent | src/util/registry.rs:54-59 | In every run, with no link half written, the live registered children of `p` are exactly the live surfaces whose upgraded parent is `p` |
| SurfaceGraph.LinkKeepsForestIff | src/protocols/core/subcompositor.rs:36-73 | A new link keeps the graph a forest if and only if the child is not the parent itself or one of its ancestors |
| SurfaceGraph.OwnParentIsNoForest | src/protocols/core/subcompositor.rs:36-73 | A reachable graph that a surface made its own parent leaves without a forest |
| SurfaceGraph.OrderlyRunsStayForests | src/protocols/core/subcompositor.rs:103-108 | If no request makes a surface its own ancestor, the graph is a forest throughout every run |
| SurfaceWalk.BelowUnfold | src/protocols/core/surface.rs:411-415 | Being below a root, by chains of parent links, is the recursion over registered children that the walks perform |
| SurfaceWalk.SubtreesAreDisjoint | src/protocols/core/surface.rs:486-488 | In a forest nothing is below two children of one surface, and no surface is below its own child |
| SurfaceWalk.SyncWalkRule | src/protocols/core/subcompositor.rs:137-146 | From a sub-surface, what the synchronized walk reaches by asking each child equals what no cleared filter cuts off |
| SurfaceWalk.RuleUnfold | src/protocols/core/subcompositor.rs:120-122 | The protocol's rule: effectively synchronized by itself, or under an effectively synchronized sub-surface, recursively |
| SurfaceWalk.CodeFollowsRuleIff | src/protocols/core/subcompositor.rs:122-135 | The code's one-link answer is the recursive rule's if and only if the surface is not a desynchronized one under a sub-surface that is not effectively synchronized |
| SurfaceWalk.WalkFollowsRuleIff | src/protocols/core/surface.rs:407-416 | A walk from a sub-surface enters what the rule says if and only if that sub-surface is effectively synchronized or all its children are synchronized by themselves |
| SurfaceWalk.DesyncUnderDesyncIsEntered | src/protocols/core/subcompositor.rs:366-371 | With a desynchronized sub-surface under a desynchronized one under a toplevel, code and rule differ, and the walk that set_desync starts enters it |
| SurfaceWalk.SurfaceTree.SetParent | src/protocols/core/surface.rs:381-389 | The toplevel is taken over in any case, the first parent wins, both ends are written, and nothing else changes |
| SurfaceWalk.SurfaceTree.SubmitWalk | src/protocols/core/surface.rs:460-488 | The submit walks terminate and visit the root and every live descendant exactly once, and nothing else |
| SurfaceWalk.SurfaceTree.UpdateCurrentStateRecursive | src/protocols/core/surface.rs:407-416 | From a sub-surface the walk terminates and visits exactly once every live descendant not cut off by a cleared filter |
| SurfaceWalk.SurfaceTree.OnCommit | src/protocols/core/surface.rs:498-512 | On both paths a commit runs its own surface's updated-state handlers first and exactly once |
| ConcurrentWalk.MoveKeepsInv | src/protocols/core/surface.rs:464-489 | Every step of a walk and every step of other tasks keeps the stack a chain of parent links and the work still to do unvisited |
| ConcurrentWalk.NoSurfaceIsVisitedTwice | src/protocols/core/surface.rs:486-488 | However linking and dying surfaces interleave with it, a walk visits no surface twice and reaches each through its own parent |
| ConcurrentWalk.NoSurvivorIsMissed | src/protocols/core/surface.rs:460-462 | A finished walk visited every surface registered below the root before it began whose chain to the root is still live |
| CommitState.SurfaceCommitAwareBuffer.constructor | src/util.rs:156-175 | All three stages start from the initial state |
| CommitState.SurfaceCommitAwareBuffer.Apply | src/util.rs:176-181 | Pending is applied, and moves on to current unless synchronization is asked for |
| CommitState.SurfaceCommitAwareBufferManager.UpdateCurrent | src/util.rs:111-117 | Dead buffers leave the registry, every live one moves on exactly once, and no other buffer changes |
| CommitState.SurfaceCommitAwareBufferManager.RequiresSurfaceSyncronization | src/util.rs:118-124 | Synchronization is never asked for |
| CommitState.ValidKeepsDistinct | src/util.rs:111-117 | Pruning keeps the registry free of repeated buffers |
| CommitState.RefinesDoubleBuffer | src/util.rs:176-184 | Under any mix of edits, commits, updates and takes, the visible part of current is what the last commit found in pending |
| CommitState.SurfaceRefinesDoubleBuffer | src/protocols/core/surface.rs:72-91 | So it is for every surface field but the frame callbacks |
| CommitState.SubsurfaceRefinesDoubleBuffer | src/protocols/core/subcompositor.rs:82-90 | So it is for the whole sub-surface state |
| FrameCallbacks.StepKeepsInv | src/protocols/core/surface.rs:72-80 | Every step of the client task, the frame tasks and the dispatch loop keeps each surface's callbacks in their six places in order |
| FrameCallbacks.CallbacksAreConserved | src/protocols/core/surface.rs:551-560 | For a live surface of a connected client, done, dispatching, queued, taken, current, applied and pending callbacks, in this order, are the requested ones |
| FrameCallbacks.FinishedInRequestOrder | src/socket.rs:192-204 | Whatever died or disconnected, the finished callbacks of a surface are a prefix of the requested ones |
| FrameCallbacks.EveryCallbackCanFinish | src/protocols/core/surface.rs:492-497 | From every reachable state of a connected client one commit and one frame event suffice to finish all that a live surface requested |
| FrameCallbacks.DispatchAll | src/socket.rs:192-204 | The dispatch loop can always empty the queue, finishing each callback in queue order |
| FrameCallbacks.Client.HandleFrame | src/socket.rs:192-204 | Each callback gets done and then delete_id and leaves the store, in order, up to the first failed write |
| BufferRelease.StepKeepsInv | src/protocols/core/buffer.rs:50-67 | Every one of the 22 kinds of step keeps every release point accounted for and every chain growing |
| BufferRelease.EveryReleaseIsAccountedFor | src/signal_on_drop.rs:22-54 | A release point whose handler was created, or could not be, is owned by a live handler, consumed by the peer, or signalled once, and never signalled by its handler once consumed |
| BufferRelease.OneWaiterPerChain | src/protocols/core/buffer.rs:120-134 | At every moment, also when a service could not be created, exactly one of a chain's points has an un-aborted waiter: the newest, or the one before while the old waiter is not yet aborted, or none between aborting and spawning |
| BufferRelease.GoneMeansNoLocalHandle | src/protocols/core/surface.rs:418-442 | Once a submit is gone, no local handle of any of its points is left |
| BufferRelease.PointsGrow | src/protocols/core/shm_buffer_backing.rs:120-122 | Points handed out are distinct, an acquire is below its release, and a reapplied release exceeds every earlier point of its chain |
| BufferRelease.SlotsHoldOne | src/protocols/core/surface.rs:436-439 | No slot ever holds two submits |
| BufferRelease.EveryReleaseCanReachTheClient | src/protocols/core/buffer.rs:88-109 | Once a submit is dropped, its newest release can still reach the client without any waiter giving up |
| BufferRelease.SlotsCanBeEmptied | src/protocols/core/surface.rs:464-466 | A submit in a slot can always be let go of, with its points and waiters unchanged |
| ReleaseTiming.NoReleaseIsSentTwice | src/protocols/core/buffer.rs:88-109 | In every run the releases told to the client are distinct, and are those whose waiter finished |
| ReleaseTiming.NoReleaseIsSentEarly | src/protocols/core/buffer.rs:98-105 | In every run in which no waiter gives up, a release is told only when the buffer's timeline has reached its point |
| ReleaseTiming.ClocksAreSignals | src/signal_on_drop.rs:48-54 | In every run a buffer's timeline stands exactly on the latest point that the peer, a dropped handler or an upload signalled |
| ReleaseTiming.PeersKeepTheirPoints | src/signal_on_drop.rs:22-54 | While the peer holds a release point it was given, the point's handler lives and nothing but the peer signals it |
| BufferCalls.SignalOnDrop.Consume | src/signal_on_drop.rs:42-46 | The peer gets the point and the handler will not signal it |
| BufferCalls.SignalOnDrop.Drop | src/signal_on_drop.rs:48-54 | The point is signalled exactly when it was not consumed; the timeline then stands there unless it is further already, and otherwise stays where it is |
| BufferCalls.Buffer.NewTimelinePoint | src/protocols/core/shm_buffer_backing.rs:175-177 | Hands out the counter's value and advances it modulo 2^64 |
| BufferCalls.Buffer.Update | src/protocols/core/buffer.rs:50-67 | Two successive points, a waiter on the second, and a submit that owns it, with the timeline left where it is; without a service the release is signalled at once and the waiter stays |
| BufferCalls.Buffer.Reapply | src/protocols/core/buffer.rs:120-134 | A newer release with its own waiter, the old waiter aborted, the acquire kept, exactly the signals that dropped handlers owe, and the timeline moved by those alone |
| BufferCalls.PointsAreDistinctIff | src/protocols/dmabuf/buffer_backing.rs:187-189 | All points of a wrapping counter are distinct if and only if at most 2^64 were handed out |
| BufferCalls.UninterruptedUpdate | src/protocols/core/buffer.rs:50-67 | The four interleaved steps of an update, run without interruption, have the effect of the call |
| Clipboard.EveryClientSeesTheLog | src/protocols/core/data_device.rs:185-195 | In every interleaving, what a connected client took and has queued is the broadcast log from its registration on; a client that is gone took a prefix |
| Clipboard.SourcesStayWithTheirCreators | src/protocols/core/data_device.rs:214-239 | Every stored selection, offer and queued request pairs a source with the client that created it, and each send is addressed by that source's id |
| Clipboard.EveryReceiveIsSentOnce | src/protocols/core/data_device.rs:289-302 | Each receive on an offer of a connected client's source gives exactly one send event there, in order |
| Clipboard.DeviceAgreesIff | src/protocols/core/data_device.rs:81-105 | In every interleaving, with one stored and none in flight, an unreleased first device's last selection is the stored one if and only if the broadcasts end in the stored one or the device does not end on the last broadcast |
| Clipboard.LogEndsInTheStoredIff | src/protocols/core/data_device.rs:179-195 | The broadcasts end in the stored selection if and only if the latest request to store was the latest to broadcast |
| Clipboard.LastSelectionIsTheStoredOne | src/protocols/core/data_device.rs:167-198 | So with set_selection serialized the last selection offered to an unreleased first device or queued for it is the stored one |
| Clipboard.OverlappingRequestsCanDisagree | src/protocols/core/data_device.rs:179-195 | A run of two overlapping set_selection requests after which a device does not agree |
| Clipboard.ViewIsTheLogSince | src/protocols/core/data_device.rs:167-198 | In every run the view of an unreleased first device grows by exactly what is broadcast, in order |
| Clipboard.FirstViewIs | src/protocols/core/data_device.rs:81-105 | A client's first device starts with what is stored and what the client still has queued |
| Clipboard.ClearedAgreesIff | src/protocols/core/data_device.rs:174-178 | With nothing stored, such a device agrees if and only if nothing was stored or queued for its client when it was created and nothing was broadcast since |
| Clipboard.DisagreesUntilStored | src/protocols/core/data_device.rs:174-178 | After a clear, a device that saw any selection disagrees in every run until the next request to store one |
| Clipboard.ClearedSelectionStaysSeen | src/protocols/core/data_device.rs:174-178 | A run that ends cleared with a device still on a selection |
| ClipboardRequests.EachStoreStoresItsList | src/protocols/core/data_device.rs:117-188 | In every run a request to select a source stores the mime types offered on it since its creation, in order, with its client as the owner |
| ClipboardRequests.StateIsAsRequested | src/protocols/core/data_device.rs:167-198 | In every run what is stored, in flight and broadcast is what the requests stored and broadcast |
| ClipboardRequests.SelectionsCarryTheirLists | src/protocols/core/data_device.rs:179-195 | Wherever a selection is stored, in flight, broadcast, queued, about to be offered or offered, it carries the mime types its source had when it was stored |
| ClipboardRequests.OffersAreAsRequested | src/protocols/core/data_device.rs:81-105 | A client is offered, in order, what it read for new devices and what was delivered for its first one, and its queue is the rest of what was sent to it |
| ClipboardRequests.EveryReceiveAsksForItsType | src/protocols/core/data_device.rs:289-302 | Each request to receive is sent once, in order, with the mime type it named, to the client whose source was offered under that id |
| ClipboardCalls.Server.RegisterClient | src/protocols/core/data_device.rs:55-57 | A new client's sink comes last and starts with an empty queue |
| ClipboardCalls.DataSource.Offer | src/protocols/core/data_device.rs:117-125 | The mime type goes behind those offered before |
| ClipboardCalls.Server.SetSelection | src/protocols/core/data_device.rs:167-198 | The selection has the mime types offered by now; every registered client still there gets it exactly once behind what it has queued; no source only clears the store |
| ClipboardCalls.Connection.OfferSelection | src/protocols/core/data_device.rs:214-239 | A missing device sends nothing; otherwise the offer, its mime types in order and the selection are sent, and the offer remembers source and owner |
| NativeBytes.BytesRoundTrip | src/protocols/dmabuf/feedback.rs:70-72 | Decoding a number's bytes in the machine's order gives the number modulo 256^k |
| NativeBytes.ArrayRoundTrip | src/protocols/core/keyboard.rs:122 | Decoding an array of integers gives them back in order, each modulo 256^k |
| Keyboard.EnterKeysRoundTrip | src/protocols/core/keyboard.rs:117-123 | The array sent with enter decodes to exactly the pressed keys |
| Keyboard.WellFormedAppend | src/protocols/core/keyboard.rs:143-161 | A stream stays well formed when it leaves only the focused surface and sends keys only with a focus and a keymap |
| Keyboard.Keyboard.UpdateKeymap | src/protocols/core/keyboard.rs:74-91 | An unknown keymap, or a new one without a file, drops the key with nothing changed; a new one is sent once and remembered |
| Keyboard.Keyboard.Refocus | src/protocols/core/keyboard.rs:105-141 | Leave for an old surface that is still there, enter with the pressed keys, modifiers; afterwards the client holds those keys and, but for the group, those modifiers |
| Keyboard.Keyboard.DeliverKey | src/protocols/core/keyboard.rs:93-177 | The table is updated, the focus moves, and the key goes to a client that holds the keymap, focus, keys and modifiers it should, and then holds the message's modifiers |
| Keyboard.Keyboard.HandleKeyboardKey | src/protocols/core/keyboard.rs:65-177 | The exact events and the new state of one key, dropped or delivered, with the client agreeing before, at and after the key, modifiers included |
| Keyboard.Keyboard.Reset | src/protocols/core/keyboard.rs:179-186 | Only clears the modifiers, and only once a keymap was sent |
| Keyboard.Serve | src/protocols/core/keyboard.rs:65-177 | For every run, replaying the stream gives the server's pressed-key set for the focused surface, its focus, its keymap and the modifiers of the last key or reset; the changes of keymap and focus are those asked for, with a leave exactly where the surface left is still there; the keys sent are exactly those of the requests not dropped, in order, each to a client that holds what it should |
| Keyboard.ServeKey | src/protocols/core/keyboard.rs:65-177 | A delivered key is the only new key event, second to last, in its place, and the changes before it are those it asks for |
| Keyboard.AccountsGrow | src/protocols/core/keyboard.rs:65-177 | Serving one more request keeps requests and key events matched one to one |
| Keyboard.InheritsIff | src/protocols/core/keyboard.rs:94-99 | A key is wrong in a surface's table if and only if another surface with its object id was the last to be told of that key, and left it otherwise than the surface had |
| Keyboard.ReusedIdInherits | src/protocols/core/keyboard.rs:94-99 | A run in which a surface enters with a key that only an earlier surface with its id pressed |
| Pointer.Pointer.HandleAbsolutePointerMotion | src/protocols/core/pointer.rs:34-93 | The exact events of one motion and the new focus |
| Pointer.Pointer.Reset | src/protocols/core/pointer.rs:306-315 | A live focus is left and framed, and the focus is cleared |
| Pointer.AfterMotion | src/protocols/core/pointer.rs:47-76 | A motion's events keep every event inside its bracket and leave its surface's bracket open |
| Pointer.AfterReset | src/protocols/core/pointer.rs:306-315 | A reset leaves no bracket open except that of a surface that is gone |
| Pointer.EveryRunIsBracketed | src/protocols/core/pointer.rs:34-93 | In every run each leave names the latest un-left enter, a second enter without a leave finds the earlier surface gone, and each motion is inside its own surface's bracket |
| Pointer.EachKindIsAsAsked | src/protocols/core/pointer.rs:34-93 | In every run exactly one motion for each motion request, at its position and in order, an enter at that position where the focus was elsewhere, a leave of a focus that is still there, and the frames |
| Pointer.Serve | src/protocols/core/pointer.rs:34-93 | The calls of a whole run send exactly those events |
| PanelChildren.XdgBackend.AddChild | src/protocols/xdg/backend.rs:191-206 | A child surface is entered under its own id and announced with its state; any other surface is ignored |
| PanelChildren.XdgBackend.RepositionChild | src/protocols/xdg/backend.rs:208-221 | A listed child gets the new geometry, and the move is told whether or not it is listed |
| PanelChildren.XdgBackend.UpdateChildZOrder | src/protocols/xdg/backend.rs:223-239 | Only a listed child changes, and the shell is told its old geometry again |
| PanelChildren.XdgBackend.RemoveChild | src/protocols/xdg/backend.rs:241-252 | The child is forgotten and its destruction told |
| PanelChildren.Connect | src/protocols/xdg/backend.rs:83-152 | A backend is handed on only with its shell set and an empty table, and not at all when refused |
| PanelChildren.RequestKeepsMirror | src/protocols/xdg/backend.rs:191-252 | With one role object for each surface, every request keeps what the shell rebuilds equal to the table but for z-orders |
| PanelChildren.AddKeepsMirrorIff | src/protocols/xdg/backend.rs:195-197 | Adding keeps the mirror if and only if the state carries the surface's own id |
| PanelChildren.MismatchedAddIsSeen | src/protocols/xdg/backend.rs:195-205 | A mismatched id always makes shell and table differ |
| PanelChildren.TableIsAsAsked | src/protocols/xdg/backend.rs:191-252 | The table holds for each id what the requests since its last addition or removal ask for |
| PanelChildren.ZOrdersAreNotTold | src/protocols/xdg/backend.rs:232-236 | Two different z-orders make the same calls |
| PanelChildren.ShellKnowsToldZOrder | src/protocols/xdg/backend.rs:223-239 | For every sequence of requests the shell knows each child's z-order as it was when the child was last added |
| PanelChildren.ShellKnowsAllIff | src/protocols/xdg/backend.rs:223-239 | What the shell rebuilds of a listed child is its whole stored state if and only if the z-order asked for is still the one it was added with |
| PanelChildren.StepKeepsInv | src/protocols/xdg/toplevel.rs:65-75 | Connecting, accepting, mapping, switching, unmapping and requests keep every reached backend mirrored |
| PanelChildren.ShellMirrorsTheTable | src/protocols/xdg/backend.rs:83-152 | In every run the backend reached through the toplevel has its shell set, and the shell's replayed calls give its table's ids, parents and geometries |
| PanelChildren.MappedIsTheLastOne | src/protocols/xdg/toplevel.rs:65-75 | In every run the mapped backend is the one last mapped or switched to, and its table is exactly what was asked of it |
| Subsurface.ChildSurface.GetSubsurface | src/protocols/core/subcompositor.rs:103-216 | A new object names the surface and sets the parent only if it is the first, and registers its handlers last |
| Subsurface.ChildSurface.SetPosition | src/protocols/core/subcompositor.rs:289-298 | The pending position is the one given, and nothing else changes |
| Subsurface.ChildSurface.PlaceBy | src/protocols/core/subcompositor.rs:301-347 | The pending z-order is one off the sibling's, or off 0 if the parent's panel does not list it, and nothing else changes |
| Subsurface.ChildSurface.Destroy | src/protocols/core/subcompositor.rs:266-286 | The surface leaves the parent's panel, if there is one, and the object is gone |
| Subsurface.ChildSurface.AddChild | src/protocols/core/subcompositor.rs:150-173 | Adds and unregisters itself only with a live object, the parent's panel and a valid buffer |
| Subsurface.ChildSurface.UpdateGeometryOf | src/protocols/core/subcompositor.rs:183-215 | Tells the panel the current position, buffer size and z-order |
| Subsurface.ChildSurface.RunUpdatedStateHandlers | src/protocols/core/surface.rs:509-512 | Runs every handler once, in order, and keeps those that ask to stay |
| Subsurface.ChildSurface.OnCommit | src/protocols/core/surface.rs:498-508 | The commit applies surface and sub-surface state before the handlers run, on both paths |
| Subsurface.RunSorts | src/protocols/core/surface.rs:509-512 | Handlers stay in order of registration, and only handlers that add are ever dropped |
| Subsurface.EachObjectAddsAtMostOnce | src/protocols/core/subcompositor.rs:148-173 | In every run each sub-surface object's handler adds at most once |
| Subsurface.CommitPlaces | src/protocols/core/subcompositor.rs:180-216 | In every run, after a commit with a valid buffer, an existing child entry holds the committed position and z-order of the newest live object and the size of the committed buffer |
| Subsurface.UpdatePlaces | src/protocols/core/surface.rs:407-410 | An update without a commit leaves the entry where the last commit put it |
| Subsurface.FirstCommitShows | src/protocols/core/subcompositor.rs:163-171 | The commit that first finds a buffer and the parent's panel makes the entry exist, at the committed place |
| Subsurface.CommitListsIff | src/protocols/core/subcompositor.rs:150-173 | A commit leaves the surface listed if and only if it was, or a live object's handler that has not added yet finds the parent's panel and a valid buffer |
| Subsurface.ReplacedPanelNeverListsIt | src/protocols/xdg/toplevel.rs:65-72 | When a panel is replaced by one that does not list the surface and each live object has added once, no later request lists it, short of a new sub-surface object |
| Subsurface.PlacedBesideSibling | src/protocols/core/subcompositor.rs:301-347 | After place_above or place_below and a commit, a listed surface is listed one above or one below where its sibling still is |
| Subsurface.OwnIdIff | src/protocols/core/subcompositor.rs:103-113 | An object adds its surface under the surface's own id if and only if it drew the id the first object drew |
| SubsurfaceRequests.PendingIsAsAsked | src/protocols/core/subcompositor.rs:289-298 | In every run what is pending is the position last set on each object and the buffer last attached |
| SubsurfaceRequests.CommitShowsWhatWasAsked | src/protocols/core/subcompositor.rs:180-216 | In every run, after a commit a listed surface is at the position last set on its newest live object, with the size of the buffer last attached |
| SubsurfaceRequests.UpdateShowsWhatWasCommitted | src/protocols/core/surface.rs:407-410 | An update without a commit leaves a listed surface where the requests before the last commit put it |
| SubsurfaceRequests.ZOrderIsAsAsked | src/protocols/core/subcompositor.rs:301-347 | An object's pending z-order is one off the sibling's in the world the last request to place it met, or 0 without one |
| SubsurfaceRequests.CommitListsUnderTheParent | src/protocols/core/subcompositor.rs:229-246 | A commit that lists the surface anew lists it under the parent its first object named, if that is a child, and else under the toplevel |
| SubsurfaceRequests.DestroyUnlists | src/protocols/core/subcompositor.rs:266-286 | Destroying an object takes the surface off the panel of its first parent and leaves every other child and panel as they are |
| SubsurfaceRequests.NewObjectTakesTheToplevel | src/protocols/core/surface.rs:381-389 | A new object gives its surface the toplevel its parent has by then |
| ShmCopy.CreateBuffer | src/protocols/core/shm_pool.rs:63-70 | A buffer is accepted exactly when its whole rows fit, and the 64-bit check never overflows |
| ShmCopy.RowsInPool | src/protocols/core/shm_pool.rs:64 | The check puts every row inside the pool and inside the staging buffer |
| ShmCopy.RefusedThoughRowsFitIff | src/protocols/core/shm_pool.rs:64 | A buffer whose rows all fit is refused if and only if the pool ends inside the unused rest of its last stride |
| ShmCopy.ShmPool.Resize | src/protocols/core/shm_pool.rs:94-107 | Shrinking is ignored, growing keeps the bytes already mapped and adds those of the file |
| ShmCopy.FitsForever | src/protocols/core/shm_pool.rs:94-107 | An accepted buffer fits after any number of later resizes |
| ShmCopy.RowsAt | src/protocols/core/shm_buffer_backing.rs:127-139 | Byte i of packed row y is byte offset + y * stride + i of the pool |
| ShmCopy.ShmBufferBacking.CopyRow | src/protocols/core/shm_buffer_backing.rs:128-139 | For an accepted buffer no index computation overflows and neither bounds check fails |
| ShmCopy.ShmBufferBacking.CopyRows | src/protocols/core/shm_buffer_backing.rs:127-140 | The loop never stops early and leaves the staging buffer equal to the packed rows |
| ShmCopy.RowsGrow | src/protocols/core/shm_buffer_backing.rs:127-139 | A row copied behind n packed rows gives n + 1 packed rows |
| ShmCopy.ShmBufferBacking.Update | src/protocols/core/shm_buffer_backing.rs:120-157 | Two successive points of a counter that wraps at 2^64, every staging byte equal to its pool byte, and the upload queued whether or not the copy could be made |
| ShmCopy.CreateResizeUpdate | src/protocols/core/shm_buffer_backing.rs:120-157 | In one run: accepted if and only if it fits, then any resizes, then an update that stages the rows of what the pool, and so the file, holds by now |
| UploadQueue.ZipDropsNothingIff | src/protocols/core/shm_buffer_backing.rs:227 | Pairing uploads with semaphores keeps every upload if and only if there is a semaphore for each |
| UploadQueue.SubmitUploads | src/protocols/core/shm_buffer_backing.rs:255-291 | Success needs every call to work and gives each upload the semaphore made for it, no two the same; how many were made is exact also on failure |
| UploadQueue.UploadThread.HandleBatch | src/protocols/core/shm_buffer_backing.rs:211-227 | The batch is empty again at the end; a failed batch is signalled whole, a submitted one has a task for each upload in order with the semaphore made for it, and no two tasks share one |
| UploadQueue.UploadThread.RunTask | src/protocols/core/shm_buffer_backing.rs:228-250 | Whatever fails, the task attaches its acquire point to its own semaphore or signals it, once |
| UploadQueue.EveryUploadIsInOnePlace | src/protocols/core/shm_buffer_backing.rs:208-253 | In every interleaving each upload is queued, in the batch, with its task, signalled or attached, once |
| UploadQueue.EveryUploadIsResolvedOnce | src/protocols/core/shm_buffer_backing.rs:208-253 | When nothing is left to do, each upload was resolved exactly once and in one way |
| UploadQueue.EachToItsOwnSemaphore | src/protocols/core/shm_buffer_backing.rs:227-273 | In every run each upload with a task or attached has the semaphore made for it, and no two uploads have the same one |
| UploadQueue.StepDecreases | src/protocols/core/shm_buffer_backing.rs:208-253 | Whatever succeeds or fails, every step of the thread or of a task leaves less to do |
| UploadQueue.QuietRunsAreShort | src/protocols/core/shm_buffer_backing.rs:208-253 | Without new uploads a run takes at most as many steps as there is left to do |
| UploadQueue.NeverStuck | src/protocols/core/shm_buffer_backing.rs:208-253 | While something is left to do the thread or a task can go on |
| UploadQueue.EveryQuietRunResolvesAll | src/protocols/core/shm_buffer_backing.rs:208-253 | From every reachable state, any run without new uploads that cannot go on has resolved every upload ever sent, exactly once, and is short |
| UploadQueue.Turn | src/protocols/core/shm_buffer_backing.rs:211-227 | An uninterrupted turn of the loop is a run of the interleaved model with the effect of the call |
| UploadQueue.Serve | src/protocols/core/shm_buffer_backing.rs:208-253 | The thread's loop and its tasks over any events start every turn with an empty batch, are a run of the interleaved model, and keep every upload in one place |
| DmabufParams.ModifierRoundTrip | src/protocols/dmabuf/mod.rs:67-74 | A modifier sent in two halves is put together again |
| DmabufParams.HalvesRoundTrip | src/protocols/dmabuf/buffer_params.rs:98 | Two halves put together come apart again |
| DmabufParams.BufferParams.Add | src/protocols/dmabuf/buffer_params.rs:56-116 | A used index or a second modifier is refused with nothing changed; otherwise the plane is stored and the first modifier stays |
| DmabufParams.BufferParams.TakeSorted | src/protocols/dmabuf/buffer_backing.rs:132-134 | The table is emptied and its planes come in the order of their indices, whatever order the table gave |
| DmabufParams.BufferParams.FromParams | src/protocols/dmabuf/buffer_backing.rs:126-137 | Planes are taken first; no modifier is an error, otherwise the index-sorted planes are encoded |
| DmabufParams.IndexSortedIsUnique | src/protocols/dmabuf/buffer_backing.rs:133 | There is only one index-sorted list of a table |
| DmabufParams.AllAcceptedIff | src/protocols/dmabuf/buffer_params.rs:75-115 | All additions of a sequence are accepted if and only if their indices are distinct and they name one modifier |
| DmabufParams.AnyOrder | src/protocols/dmabuf/buffer_params.rs:75-115 | Two orders of the same such additions give the same table and modifier |
| DmabufParams.EachPlaneIsImportedAtMostOnce | src/protocols/dmabuf/buffer_backing.rs:132 | In every run each accepted plane is in the table or was taken by exactly one creation, so it reaches at most one import |
| DmabufParams.IsDisjoint | src/protocols/dmabuf/buffer_backing.rs:45-59 | The loop answers yes exactly when two planes whose fstat worked are in different files |
| DmabufParams.Encode | src/protocols/dmabuf/buffer_backing.rs:45-71 | Disjoint planes as they are, none is an error, and otherwise one descriptor with every layout |
| DmabufParams.MeaningIsKeptIff | src/protocols/dmabuf/buffer_backing.rs:60-71 | The encoding names the same memory for every plane if and only if planes were seen in different files or really are in one |
| DmabufParams.SimpleIffOneFile | src/protocols/dmabuf/buffer_backing.rs:45-71 | If every fstat works, the simple form is chosen exactly for planes of one file and the meaning is always kept |
| DmabufParams.AFailedStatCanChangeTheMeaning | src/protocols/dmabuf/buffer_backing.rs:47-50 | One failing fstat can put a plane in the wrong file |
| FormatTable.SendFormatTable | src/protocols/dmabuf/feedback.rs:52-78 | The file is the encoded table, and the announced size is its length if and only if it has fewer than 2^28 entries |
| FormatTable.EntryIsThere | src/protocols/dmabuf/feedback.rs:67-73 | Entry i is at byte 16 i |
| FormatTable.EntryRoundTrip | src/protocols/dmabuf/feedback.rs:70-72 | An entry decodes to its format and modifier |
| FormatTable.RoundTripIff | src/protocols/dmabuf/feedback.rs:34-37 | The client gets the list back if and only if each format is found at its index cut to 16 bits, inside the announced size |
| FormatTable.ShortTablesRoundTrip | src/protocols/dmabuf/feedback.rs:34-37 | Every list of at most 65536 formats is read back in order |
| FormatTable.RoundTripIffShort | src/protocols/dmabuf/feedback.rs:34-37 | A list without duplicates is read back if and only if it has at most 65536 formats |
| Positioner.InfiniteGeometry | src/protocols/xdg/positioner.rs:49-116 | For all anchors and gravities the result is the intended place modulo 2^32, and that place itself when no step leaves 32 bits |
| Positioner.LiesOnItsSide | src/protocols/xdg/positioner.rs:49-116 | The anchor point is on the named edge or corner of the anchor rectangle and the popup lies on the named side of it, centred within a pixel where nothing is named |
| Positioner.SteppedIsIdeal | src/protocols/xdg/positioner.rs:49-116 | However often the steps wrap, they give the intended place modulo 2^32 |
| Positioner.EdgesAreSides | src/protocols/xdg/positioner.rs:21-48 | The edge tests of the nine gravities are one side on each axis |
| Positioner.MirrorLaw | src/protocols/xdg/positioner.rs:49-116 | Mirroring the input mirrors the result up to one pixel, with the exact error and exactly when it is zero |
| Positioner.MirrorIsExactIffEven | src/protocols/xdg/positioner.rs:49-116 | It is exact for every anchor and gravity if and only if both lengths on the axis are even |
| Positioner.SmallIsInRange | src/protocols/xdg/positioner.rs:49-116 | Up to 2^29 no step overflows, mirrored or not |
| Positioner.CodeMirrorsX | src/protocols/xdg/positioner.rs:49-116 | What the code computes for the input with left and right swapped is the mirror image within a pixel |
| Positioner.CodeMirrorsY | src/protocols/xdg/positioner.rs:49-116 | The same for top and bottom |
| Positioner.Positioner.Handle | src/protocols/xdg/positioner.rs:158-264 | The whole new state after each request |
| Positioner.LastOfItsKindWins | src/protocols/xdg/positioner.rs:158-255 | In every run a size, rectangle, anchor, gravity, adjustment or parent size lasts until the next request of its kind |
| Positioner.OffsetsAddUp | src/protocols/xdg/positioner.rs:223-234 | In every run the offset is the sum of those set since the last anchor rectangle, modulo 2^32 |
| Positioner.OffsetIsReplacedIff | src/protocols/xdg/positioner.rs:231-232 | Setting an offset replaces the old one if and only if the earlier ones cancel out |
| Positioner.ReactiveIffSized | src/protocols/xdg/positioner.rs:158-169 | In every run a positioner is reactive if and only if its size was set |

## Left out

- Sockets, the async runtime, IPC proxies, Vulkan, memfd, syncobj and `fstat`: they are steps or parameters that may succeed or fail. A failed service creation drops its handler, as `src/signal_on_drop.rs:23` says.
- Failed writes to a client: the dispatch loop for frame callbacks stops at one; for the keyboard, the pointer and the data device, where a failure ends the client, every write succeeds.
- Event serials, timestamps and logging, the 500 ms warning of a release task, and presentation feedback.
- Counters beyond 2^64: `BufferRelease` stops a run before a point would repeat, and `BufferCalls.PointsAreDistinctIff` says that this is exactly where distinctness ends.
- Calls to a panel shell that fail are logged and lost: `PanelChildren` speaks of the calls made.
- The bytes of a pool changing under the copy: a client may write to the shared memory while it is read; the model's pool holds still.
- Deferred state of synchronized sub-surfaces: the code has none.
- Clipboard behaviour after `wl_data_device.release`: the device id is kept and the next selection ends the client; the theorems about devices ask for an unreleased one.
- Reading the clipboard in `get_data_device`: setting the device and reading the selection are one step.
- The order in which a registry gives its children: arbitrary. Reading it is two steps, as it is locked piece by piece; a child added or lost in between may or may not be found.
- The handlers that xdg roles add to a surface, popups, cursors, drag and drop, decorations, viewports, regions, outputs, panel UI, acceptor queries and default shells: they would add easy members.
- Pointer buttons, scrolling and relative motion: buttons do not look at the focus, and the deltas are passed through.
- Allocation limits: creating the staging buffer, the dmatex and the descriptors may fail; a buffer that failed is not modelled further.
- A surface that is its own parent: `Subsurface` keeps the surface apart from the others it refers to.
- ShmCopy.ShmBufferBacking.Update: does not model the upload that follows, which `UploadQueue` does.
- Subsurface.CommitPlaces: does not model two live objects of one surface taking turns; it speaks of the newest one, whose handlers run last.
- Keyboard.Serve: speaks of one keyboard object; a client with several has one stream for each.
