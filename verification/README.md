# Wrapland server, verified

A Dafny model of the parts of the Wrapland Wayland server that keep state across requests, with proofs of what they promise.

The core is the double-buffered surface tree of `server/surface.cpp` and `server/subcompositor.cpp`. Each surface has a pending and a current state, a subsurface also a cached one; a commit patches one surface or, through its children, a whole tree. `SurfaceTree.dfy` holds the state as values with every operation as a function from tree to tree, and then the program itself: the classes `Surface` and `Subsurface`, whose methods update their fields in place, loop and recurse as the C++ does, each proved to do to the objects what the function does to the tree. The other files prove properties of those functions over every tree and every run:

- `TreeWalk.dfy`, `AtomicCommit.dfy`: the recursive commit is one atomic update of the tree; effective synchronization; unmapping; the mode change.
- `RootSurface.dfy`: flag-gated double buffering of a surface without a role refines a server that copies its whole pending state; the children lists.
- `Content.dfy`: every surface as a pipeline of changes, the flags an update raises, and buffers held once.
- `Positions.dfy`: where a subsurface is.
- `Family.dfy`: roles, parents, modes and stacking, by the operations.
- `Orphans.dfy`: which children the destructor of a surface reaches.
- `Isolation.dfy`: synchronized subsurfaces show nothing until an ancestor applies it.
- `Presentation.dfy`: which answer a feedback gets, and under which id.
- `Feedback.dfy`, `Callbacks.dfy`: presentation feedbacks are conserved, frame callbacks are first in, first out, with the exact condition.
- `SurfaceSize.dfy`: when a changed size is announced.
- `Restack.dfy`: the stacking order.
- `Scenarios.dfy`: runs that end where these promises end, from any tree.

The pools of a seat and the dmabuf parameters are modules of their own, built alike: a pool as a value, one function for each operation, an invariant that every step keeps, the statement about runs, and a class with the loops of the original proved against the functions.

- `KeyboardFocus.dfy`, `SelectionFocus.dfy`, `DragTarget.dfy`, `TouchPoints.dfy`: a client that knows only the events it was sent agrees with the pool, and the event logs follow the protocol.
- `KeyboardHistory.dfy`, `SelectionHistory.dfy`, `DragHistory.dfy`, `TouchHistory.dfy`: the same pools against the operations made of them: what clients know after a run, and the events of each step, by the operations alone.
- `SelectionCancels.dfy`: who is told that a source was replaced, and how often.
- `PointerGrab.dfy`: which serials count as an implicit grab.
- `DmabufParams.dfy`, `DmabufHistory.dfy`: file descriptors are linear, the plane counter is exact, and slots, buffer and replies are those the requests call for.
- `Devices.dfy`, `Seqs.dfy`: the shared list helpers.

Events are appended to logs, and the handlers of a destroyed object run as one step. Shared assumptions: the parent links of subsurfaces form a forest (the code has no check, see the note at `server/subcompositor.cpp:85-87`), which `depth` and `bound` in a tree's shape witness; an attach request always makes a new buffer object; serials are 32-bit and wrap.

Where the code does not do what its protocol or its own comments suggest, the code is modelled, the exact condition is a lemma, and so is an input or a run that shows it:

| what happens | exactly when | shown by |
|---|---|---|
| a child keeps a pointer to its destroyed parent | `ChildrenAreLostIff` | `AbandonedChildRun` |
| a committed change is lost | `CommitLosesIff` | `LostChangeRun` |
| a frame callback is lost, or overtaken | `KeepsOrderIff`, `CallbacksAreFifoIff` | `LostCallbackRun`, `OvertakenCallbackRun` |
| a size changes unannounced | `CommitAnnouncesSizes` | `UnsetSourceGrowsSilently` |
| a transform is requested and never taken | always: `TransformIsNeverTaken` | |
| a selection device is passed over | `ListIsCutShortIff` | `LateDeviceRun` |
| a source is cancelled twice, or again | `StepCancels`, `CancelledAgainIff` | `CancelledTwiceRun`, `CancelledLaterRun` |
| a data device is no target of a drag over its client | `TargetsFallShortIff` | `TargetsFallShortRun` |
| a cancelled drag reports a drop | always: `CancelReportsADrop` | |
| an earlier source ends a later drag | `StaleSourceClearsIff`, `StaleSourceLeavesTargets` | `StaleSourceRun` |
| two buttons share a serial | `GrabIsExactIff` | `OldSerialIsAmbiguous` |
| the plane size check passes a plane that does not fit | `SizeCheckIsSoundIff` | `WidePlaneRun` |

Verify with `dafny verify dfyconfig.toml`.

## Model

| member | source | states |
|---|---|---|
| AtomicCommit.CommitIsAtomic | server/surface.cpp:636-676 | A commit on a surface that is not effectively synchronized equals one simultaneous update of the whole tree: every surface takes exactly the state it should, from the states as they were before the commit, however the recursion rewrites the lists it walks |
| AtomicCommit.SynchronizedTakeTheirCache | server/subcompositor.cpp:149-169 | After the commit every effectively synchronized surface that the new current children lead to has its old cache patched into its old current state, its cache emptied, its pending state untouched |
| AtomicCommit.OthersKeepTheirContent | server/subcompositor.cpp:163-168 | Every other surface below or outside keeps its whole record but the update mask, in which at most the children flag is new, and its cache |
| AtomicCommit.UpdateIsAtomic | server/surface.cpp:636-676 | The same for every update, from pending or cached, forced or not |
| AtomicCommit.UpdatedIsUnique | server/surface.cpp:636-676 | That description leaves one tree only: who is reached, what is taken and whether an unmap marks are all settled by the states before the update, so the commit equals it |
| AtomicCommit.FlushIsAtomic | server/subcompositor.cpp:265-287 | Turning desynchronized is either such an update from the cache, exactly when no surface above synchronizes, or changes only the mode |
| AtomicCommit.UnmapShowsAbove | server/surface.cpp:442-489 | When the commit ends a surface has the children flag exactly if its own taken flags have it or a null buffer was taken below it along effectively synchronized roles |
| AtomicCommit.MarkedAboveIsTheStretch | server/surface.cpp:442-449 | An unmap marks the parent and each further ancestor up to and including the first that is not effectively synchronized, and no other surface |
| AtomicCommit.SyncIsSomewhereAbove | server/subcompositor.cpp:333-351 | A subsurface is effectively synchronized exactly when it or some surface above it plays its role in synchronized mode |
| AtomicCommit.MainSurfaceIsTheRoot | server/subcompositor.cpp:353-362 | The main surface of a subsurface is the surface above it that plays no role; there is none exactly when a parent on the way up is gone |
| TreeWalk.ForceIsRedundant | server/subcompositor.cpp:149-169 | A server without the force argument walks every tree to the same result |
| AtomicCommit.UpdateIsPlain | server/surface.cpp:673-675 | The same for every update that commit or setMode starts: forcing reaches effectively synchronized subsurfaces only |
| TreeWalk.WalkEffect | server/subcompositor.cpp:149-169 | Who is visited and who applies its cache in a walk is read off the tree the walk ends in, surface by surface |
| TreeWalk.WalkMarks | server/surface.cpp:475-480 | The walk raises the children flag exactly above the surfaces it unmaps |
| Content.EverySurfaceIsAPipeline | server/surface.cpp:539-676 | Over every run every surface, with or without a role, shows what a three-stage list of changes shows: requests record into pending, a synchronized commit replaces the cache by it, any other commit and every update that takes the surface lay their list over what is shown, property by property and buffer offset included |
| Content.StepAdvances | server/subcompositor.cpp:149-189 | Every operation anywhere in the tree is one step of that pipeline, or none, told from the tree before it |
| Content.ParkMovesWholeState | server/subcompositor.cpp:175-179 | A synchronized commit moves the whole pending state into the cache and keeps only the children list |
| Content.CommitReports | server/surface.cpp:471-473 | Every surface that takes a state in a commit has the mapped flag if and only if it got or lost its content, the frame flag if and only if callbacks wait, the flags of the properties that were asked for, and the offset of its last buffer |
| Content.FlushReports | server/subcompositor.cpp:265-287 | The same for every surface that the flush of a mode change reaches, compared with the states before the mode change |
| Content.SourcesCarryNoReport | server/surface.cpp:716-763 | No pending or cached state carries the flags that only an update raises |
| Content.CommitLosesIff | server/subcompositor.cpp:175-179 | A synchronized commit keeps what its surface will show if and only if each change still parked is made again by it or changes nothing; otherwise that change is lost |
| Scenarios.LostChangeRun | server/subcompositor.cpp:175-179 | A run, in any tree, that sets a scale, commits, sets an opaque region and commits: the scale is nowhere any more |
| Content.BuffersAreHeldOnce | server/surface.cpp:733-763 | On every run from a new surface no buffer is in two of its pending, cached and current states |
| Content.DestroyedBufferIsGone | server/surface.cpp:748-762 | So the destruction of a buffer, which clears the first of the three that has it, leaves it in none |
| Positions.PositionsFollowEvents | server/subcompositor.cpp:149-169 | Over every run the position of a subsurface and the one that waits are those that its own requests and the updates reaching it leave |
| Positions.StepMoves | server/subcompositor.cpp:202-209 | Every operation moves a subsurface so or not at all; who is reached is told from the tree before the step |
| Positions.RunEndsWhereAsked | server/subcompositor.cpp:152-158 | The position is the argument of the last request that took effect before the last update that reached the subsurface |
| Positions.LastMoveShows | server/subcompositor.cpp:152-158 | The same for any list of requests and updates, with nothing left waiting |
| Positions.MoveShowsWithCommit | server/subcompositor.cpp:149-209 | A request for a new position and a commit: the subsurface is there with nothing scheduled if the commit reaches it, and else where it was with that position scheduled |
| Family.TiesFollowOperations | server/surface.cpp:61-90 | Over every run roles, parents and modes are those that creations, destructions and mode changes made, and nothing else changes them; a destroyed surface orphans its children |
| Family.PlaceStacks | server/surface.cpp:132-212 | Placing puts the child directly above or below the named sibling, at the end for the parent, and changes nothing for any other surface; the others keep their order and the current list its own |
| RootSurface.RootRefinesSimple | server/surface.cpp:539-629 | Over every run in which a surface has no role, current and the flag-selected pending fields equal those of a server with one full pending copy that it copies whole on commit |
| RootSurface.NeverASubsurface | server/surface.cpp:733-763 | From creation on, a surface never given a role shows what that simple server shows; pending children are duplicate-free and exactly the subsurfaces whose parent it is, current ones are among them, both equal while the children flag is down |
| RootSurface.StepKeepsRoot | server/surface.cpp:92-130 | Each operation of the whole tree keeps the simulation and the children-list invariant of such a surface |
| RootSurface.StepOnRoot | server/surface.cpp:636-676 | What any operation anywhere does to such a surface is one event of its own, or nothing |
| Orphans.ChildrenAreLostIff | server/surface.cpp:92-130 | The destructor of a surface reaches the children in its current and pending lists. An operation makes it lose one exactly when the surface takes a source without some child that the pending list does not name either, or takes pending without the children flag while a child is only pending: told from the lists, flags and modes before the operation |
| Orphans.NeverASubsurfaceLeavesNoStrays | server/surface.cpp:61-90 | On every run a surface never given a role has all its children in reach of its destructor |
| Scenarios.AbandonedChildRun | server/subcompositor.cpp:171-189 | A run of eight requests, in any tree, after which a living child has a parent that the parent's destructor does not clear: added while synchronized, parked in the cache, the cache dropped with the role, and pending reset to a current list without it |
| Isolation.QuietRunsShowNothing | server/subcompositor.cpp:171-189 | No run of requests, restacking, positions, new surfaces and roles, mode changes that flush nothing, and commits of effectively synchronized subsurfaces changes any current state or position |
| Feedback.FeedbackIsConserved | server/surface.cpp:1027-1150 | On every run, a feedback asked for once on a surface is in exactly one waiting slot, answered by one event, or taken back by its client; so at most one answer, through cache overwrites, output removal and wrapping ids |
| Feedback.EverythingIsAnswered | server/surface.cpp:1068-1076 | Once the surface is destroyed, and the subsurface that keeps its cache, each feedback asked for was answered or taken back, exactly once |
| Feedback.CacheOutlivesSurface | server/surface.cpp:79-82 | The cache of a destroyed surface stays unchanged in its subsurface, which has no surface any more |
| Presentation.StepAnswers | server/surface.cpp:1045-1066 | A step tells a feedback presented exactly when it is the call that presents the entry it waits in, as often as it is in there, and every other step never does; ids are handed out by locks and taken back by their answer only |
| Presentation.NewSurfacePresents | server/surface.cpp:1045-1059 | Over any run a feedback was told presented as often as such a call met it |
| Presentation.OtherAnswersDiscard | server/surface.cpp:1145-1150 | Over any run all that no longer waits, was not presented and not taken back was discarded: overwritten caches, removed outputs, reused ids and newer contents |
| Presentation.LastWordsDiscard | server/surface.cpp:1073-1076 | What the destruction of the surface and its subsurface answers is discarded |
| Presentation.NewSurfaceIds | server/surface.cpp:1027-1043 | The n-th lock of a surface gets the n-th id of 1 to 2^32 - 1, over and over |
| Presentation.IdsAreSharedIff | server/surface.cpp:1037-1041 | Two locks share an id if and only if a multiple of 2^32 - 1 locks lies between them |
| Presentation.LockedUnderItsId | server/surface.cpp:1027-1043 | A lock moves all feedbacks of the shown content, in order, under its id and to its output, and no other entry |
| Feedback.RunLedger | server/surface.cpp:1027-1104 | Asked-for plus earlier occurrences equal waiting plus answered plus taken-back ones after any run |
| Feedback.StepLedger | server/surface.cpp:668-671 | Each operation keeps that balance for every surface and every feedback |
| Feedback.CommitConserves | server/subcompositor.cpp:171-189 | A commit, parked or applied to a whole tree, loses and duplicates no feedback: an overwritten cache answers what it held |
| Callbacks.StepQueue | server/subcompositor.cpp:171-184 | What the queue done, current, cached, pending of the frame callbacks of a surface is after any operation, exactly: kept, one longer, without the overwritten cached ones, with the pending ones before the cached ones, or without the cache of a role given up |
| Callbacks.KeepsOrderIff | server/subcompositor.cpp:171-184 | An operation keeps the order and number of the callbacks, no two of them the same, if and only if it is not a synchronized commit over cached callbacks, not another commit of pending callbacks past cached ones, and not the end of a role that has cached ones |
| Callbacks.CommitQueue | server/subcompositor.cpp:171-189 | A parked commit keeps done and current callbacks and replaces the cached ones by the pending ones; any other appends the pending ones to the current ones, before what is cached; no other surface is affected |
| Callbacks.CallbacksAreFifoIff | server/surface.cpp:721-731 | Over any run with distinct callbacks: they are queued and answered in the order of the requests, none lost, if and only if every operation of the run keeps the order; once broken it stays so |
| Callbacks.NewSurfaceIsFifoIff | server/surface.cpp:721-731 | The same from the creation of a surface on |
| Callbacks.CallbacksAreFifo | server/surface.cpp:721-731 | On runs whose operations keep the order this holds for any callbacks, distinct or not |
| Callbacks.RootCallbacksAreFifo | server/surface.cpp:544-548 | On a surface never given a role the done log, current and pending callbacks are always, in this order, the request log |
| Callbacks.RenderDrains | server/surface.cpp:377-388 | frameRendered answers all callbacks of every surface the current children lead to, in order, and leaves every other surface alone |
| Callbacks.DestroySubsurfaceQueue | server/subcompositor.cpp:300-311 | Destroying a subsurface loses the callbacks its cache holds and no others |
| Scenarios.LostCallbackRun | server/subcompositor.cpp:175-178 | A run, in any tree, after which the first of two callbacks of a synchronized subsurface is nowhere any more |
| Scenarios.OvertakenCallbackRun | server/subcompositor.cpp:265-287 | A run, in any tree, after which the second callback of a subsurface is ahead of the first |
| SurfaceSize.CommitAnnouncesSizes | server/surface.cpp:613-666 | In a committed tree a surface that took a state and shows a valid buffer changes its size without the size flag if and only if the state only unsets a source rectangle that decided the size |
| SurfaceSize.SizeFlagIsComplete | server/surface.cpp:451-489 | The same for one patch |
| SurfaceSize.SizeFlagIff | server/surface.cpp:451-489 | When one patch raises the size flag at all: a new scale, a deciding source rectangle, a destination or a buffer of another size, on a surface with content |
| SurfaceSize.UnsetSourceGrowsSilently | server/surface.cpp:618-628 | That case exists: a concrete buffer whose size goes from 50 by 50 to 100 by 100 without the flag |
| SurfaceSize.TransformIsNeverTaken | server/surface.cpp:716-719 | No patch ever takes a transform, since no request raises its flag |
| Restack.RaiseRestacks | server/surface.cpp:132-174 | Raising permutes the list and keeps the relative order of all but the moved child |
| Restack.LowerRestacks | server/surface.cpp:176-212 | Lowering does the same |
| Restack.RaisePlaces | server/surface.cpp:132-174 | When raising succeeds, that a failure changes nothing, and that the child ends at the top or directly above the named sibling |
| Restack.LowerPlaces | server/surface.cpp:176-212 | When lowering succeeds, that a failure changes nothing, and that the child ends at the bottom or directly below the named sibling |
| SurfaceTree.Surface.Commit | server/surface.cpp:678-698 | Does to the objects what a commit does to the tree: hands over to the subsurface, or updates from pending |
| SurfaceTree.Surface.UpdateCurrentState | server/surface.cpp:636-676 | In place, with its recursion over the list just rewritten, it does to the objects what the update function does to the tree, and terminates on every forest |
| SurfaceTree.Surface.ApplyChildren | server/surface.cpp:673-675 | The loop over the current children is the walk |
| SurfaceTree.Surface.CopyToCurrent | server/surface.cpp:539-629 | Copies the flagged fields and appends the callbacks; gives back whether the size may have changed |
| SurfaceTree.Surface.UpdateBuffer | server/surface.cpp:451-489 | Takes the buffer and the mapped flag, tells the surfaces above of an unmap, and reports a resize |
| SurfaceTree.Surface.SyncedChildUpdate | server/surface.cpp:442-449 | Marks this surface and the stretch of synchronized roles above it |
| SurfaceTree.Surface.AddChild | server/surface.cpp:92-104 | Appends to pending and to the cache of its own role, and raises the flag |
| SurfaceTree.Surface.RemoveChild | server/surface.cpp:106-130 | Removes from all three lists and raises no flag |
| SurfaceTree.Surface.RaiseChild | server/surface.cpp:132-174 | Result and new pending list are those of the list function, in place |
| SurfaceTree.Surface.LowerChild | server/surface.cpp:176-212 | Result and new pending list are those of the list function, in place |
| SurfaceTree.Surface.AttachBuffer | server/surface.cpp:733-763 | Writes the pending buffer, null or new, the offset and the flag |
| SurfaceTree.Surface.BufferDestroyed | server/surface.cpp:748-762 | A destroyed buffer is dropped from the first of pending, current and cache that holds it |
| SurfaceTree.Surface.SetTransform | server/surface.cpp:716-719 | Writes the pending transform and no flag |
| SurfaceTree.Surface.FrameRendered | server/surface.cpp:377-388 | Answers the callbacks here and, through the current children, below |
| SurfaceTree.Surface.LockPresentation | server/surface.cpp:1027-1043 | Returns 0 and changes nothing without active feedbacks, else moves them to a new nonzero id |
| SurfaceTree.Surface.PresentationFeedback | server/surface.cpp:1045-1059 | Answers the entry as presented and erases it |
| SurfaceTree.Surface.PresentationDiscarded | server/surface.cpp:1061-1066 | Answers the entry as discarded and erases it |
| SurfaceTree.Surface.OutputRemoved | server/surface.cpp:1099-1104 | Discards the entry of a removed output and keeps it empty |
| SurfaceTree.Surface.RemoveFeedback | server/surface.cpp:1083-1089 | The feedback a client destroys leaves the list it waits in |
| SurfaceTree.Surface.Destroy | server/surface.cpp:61-90 | The role turns inert, every child listed in current or pending loses its parent, and the pointer of every other child to it is left as it was |
| SurfaceTree.Subsurface.ApplyCached | server/subcompositor.cpp:149-169 | Takes the scheduled position, then the cache if forced or synchronized, else only visits the children |
| SurfaceTree.Subsurface.Commit | server/subcompositor.cpp:171-189 | Parks the pending state over the cache, or updates from pending |
| SurfaceTree.Subsurface.SetMode | server/subcompositor.cpp:265-287 | Same mode: nothing; turning desynchronized under no synchronization: shows the child at once and flushes the cache |
| SurfaceTree.Subsurface.SetPosition | server/subcompositor.cpp:202-209 | Schedules a position unless it is the current one, which does not cancel an earlier one |
| SurfaceTree.Subsurface.PlaceAbove | server/subcompositor.cpp:220-229 | Raises in the parent, reports a bad sibling, and is without effect when there is no parent |
| SurfaceTree.Subsurface.PlaceBelow | server/subcompositor.cpp:240-249 | Lowers in the parent, likewise |
| SurfaceTree.Subsurface.IsSynchronized | server/subcompositor.cpp:333-351 | Computes effective synchronization |
| SurfaceTree.Subsurface.FindMainSurface | server/subcompositor.cpp:353-362 | Finds the surface without a role above, or nothing where a parent is missing |
| SurfaceTree.Subsurface.Create | server/subcompositor.cpp:289-298 | A new subsurface joins the forest and the pending list of its parent |
| SurfaceTree.Subsurface.Destroy | server/subcompositor.cpp:300-311 | Gives up the role, leaves all lists of the parent, and drops the cache with its feedbacks answered |
| KeyboardFocus.ClientViewAgrees | server/keyboard_pool.cpp:48-148 | After any run the focus, pressed keys, modifiers and keymap that a client rebuilds from the events of a focused keyboard are the pool's; unfocused keyboards know of no focus; focused keyboards are those of the focused client in order; every log follows the protocol |
| KeyboardFocus.EnterAndLeaveAlternate | server/keyboard.cpp:119-135 | Between two enter events of a keyboard there is a leave event |
| KeyboardHistory.ClientKnowsWhatWasAsked | server/keyboard_pool.cpp:74-175 | After any run, by the operations alone: a living keyboard of the focused client knows the surface last focused, the keys last said to be down, the last modifiers, keymap and repeat rate; any other knows of no focus |
| KeyboardHistory.LastKeyDecides | server/keyboard_pool.cpp:74-95 | A key is down exactly when the last operation on it pressed it |
| KeyboardHistory.StepTells | server/keyboard_pool.cpp:84-166 | Every step sends each keyboard exactly the events its operation calls for, with the serial drawn for it, and nothing else |
| KeyboardHistory.NewKeyboardHears | server/keyboard_pool.cpp:48-72 | A new keyboard is sent the repeat rate, and in focus the keymap, the enter event and the modifiers |
| KeyboardHistory.StepDraws | server/keyboard_pool.cpp:84-148 | How many serials each step draws, and which of them modifiers, focus and last key state keep |
| KeyboardFocus.StepKeeps | server/keyboard_pool.cpp:74-166 | Every operation keeps the agreement |
| KeyboardFocus.LazyKeymapIsCurrent | server/keyboard_pool.cpp:150-166 | A keyboard not marked was last sent exactly the pool's keymap; a focused one is marked only while the pool has none |
| KeyboardFocus.KeymapPrecedesEnter | server/keyboard_pool.cpp:142-147 | Whenever the pool has a keymap, the keyboard was sent it before any enter event of any step |
| KeyboardFocus.KeyboardPool.FocusIsKnown | server/keyboard.cpp:137-155 | Every focused keyboard has its focused surface set, so the assertions in key and updateModifiers hold |
| KeyboardFocus.KeyboardPool.CreateDevice | server/keyboard_pool.cpp:48-72 | A new keyboard gets the repeat rate, and for the focused client the keymap and an enter event, in that order |
| KeyboardFocus.KeyboardPool.DeviceDestroyed | server/keyboard_pool.cpp:63-69 | The keyboard leaves both lists |
| KeyboardFocus.KeyboardPool.Key | server/keyboard_pool.cpp:84-95 | Draws a serial; a repeated state is dropped, any other goes to every focused keyboard |
| KeyboardFocus.KeyboardPool.UpdateKey | server/keyboard_pool.cpp:74-82 | Tells whether the state is new and stores it |
| KeyboardFocus.KeyboardPool.UpdateModifiers | server/keyboard_pool.cpp:97-118 | Equal modifiers change nothing, new ones draw a serial and go to every focused keyboard |
| KeyboardFocus.KeyboardPool.SetFocusedSurface | server/keyboard_pool.cpp:120-148 | All old keyboards leave, the new ones get the keymap where needed and enter |
| KeyboardFocus.KeyboardPool.SetKeymap | server/keyboard_pool.cpp:150-166 | Marks every keyboard and sends the keymap to the focused ones |
| KeyboardFocus.KeyboardPool.SetRepeatInfo | server/keyboard_pool.cpp:168-175 | Clamps at zero and tells every keyboard new enough |
| KeyboardFocus.KeyboardPool.SurfaceGone | server/keyboard.cpp:127-131 | The keyboards of a destroyed surface leave with a serial each, and the pool forgets its focus |
| KeyboardFocus.KeyboardPool.PressedKeys | server/keyboard_pool.cpp:177-186 | Gives exactly the pressed keys, each once |
| KeyboardFocus.Keyboard.SetFocusedSurface | server/keyboard.cpp:119-135 | Leave for the old surface, enter with pressed keys and then modifiers for the new one |
| SelectionFocus.SelectionViewAgrees | server/selection_pool.h:47-127 | After any run every device in the focus list knows, from the events since it entered, the pool's source; the list is a subsequence of the devices, of one client, and of that of the keyboard focus |
| SelectionFocus.StepKeeps | server/selection_pool.h:47-127 | Every operation keeps that |
| SelectionFocus.ListIsCutShortIff | server/selection_pool.h:71-89 | The list stays complete on every step but one: it misses a device exactly if the device registers while its client lingers in the list without the keyboard focus |
| SelectionFocus.ListIsComplete | server/selection_pool.h:71-89 | So runs without such a registration end with the full list |
| SelectionFocus.LateDeviceIsMissed | server/selection_pool.h:80-83 | The missed device is sent no selection even after its client gets the keyboard focus again |
| SelectionFocus.LateDeviceRun | server/selection_pool.h:47-89 | A run from the start that ends so: the other device of the client hears the selection, this one does not |
| SelectionFocus.OnlyFocusedHear | server/selection_pool.h:121-127 | Selection events go only to devices that are in the list when the step ends |
| SelectionHistory.DevicesKnowWhatWasSelected | server/selection_pool.h:47-119 | After any run, by the operations alone: the selection, what each device set, and the devices in the focus list, each of which knows that selection |
| SelectionHistory.StepTells | server/selection_pool.h:71-127 | Every step tells each device exactly a changed selection if it is listed, or a set one if its client takes over |
| SelectionHistory.NewDeviceHears | server/selection_pool.h:63-68 | A device that registers under keyboard focus is sent a selection that is set, and no other is |
| SelectionFocus.ReplacedSourcesAreCancelled | server/selection_pool.h:91-119 | Over any run a source that was the selection and is not any more was cancelled, unless it was destroyed |
| SelectionCancels.StepCancels | server/selection_p.h:49-62 | How often each operation cancels a source, exactly, from the state before: by the pool that gives it up, by the device that gives it up, and at its destruction once for every device that has it set |
| SelectionCancels.OwnReplacementCancelsTwice | server/selection_p.h:49-62 | A step other than a destruction cancels a source at most twice, and twice if and only if a device in focus replaces it as its own selection while it is the pool's |
| SelectionCancels.CanBeCancelledIff | server/selection_pool.h:91-119 | Some operation can cancel a source if and only if the pool or some device has it |
| SelectionCancels.CancelsAreConserved | server/selection_p.h:36-63 | Over any run, for each source: cancels plus standing claims plus claims that ended with their device or in the destruction of the source equal the claims ever made, by devices and by the pool |
| SelectionCancels.CancelledAgainIff | server/selection_p.h:49-62 | In any state, a run in which nobody names the source again can cancel it once more if and only if the pool or some device still has it |
| SelectionCancels.CancelsAreBounded | server/selection_p.h:49-62 | Such a run cancels it at most once for every claim that stands |
| SelectionCancels.CancelledTwiceRun | server/selection_p.h:49-62 | A run from the start in which a client takes its selection back and its source is cancelled twice at once |
| SelectionCancels.CancelledLaterRun | server/selection_p.h:49-62 | A run from the start in which a source that another one replaced is cancelled again later, when its device picks a third one without the keyboard focus |
| SelectionFocus.SelectionPool.RegisterDevice | server/selection_pool.h:47-69 | A device with keyboard focus joins the list and is sent a source that is set |
| SelectionFocus.SelectionPool.SetFocusedSurface | server/selection_pool.h:71-89 | No surface empties the list, the same client changes nothing, another client takes over and is sent the source |
| SelectionFocus.SelectionPool.SetSelection | server/selection_pool.h:91-119 | A new source is sent to the list, then the old one is cancelled |
| SelectionFocus.SelectionPool.DeviceSetSelection | server/selection_p.h:36-63 | The device cancels its old source, and with keyboard focus the pool takes the new one |
| SelectionFocus.SelectionPool.SourceDestroyed | server/selection_pool.h:104-111 | The pool clears its selection, then every device that had the source set withdraws it |
| SelectionFocus.SelectionPool.SeatSetFocus | server/seat.cpp:244-264 | The same focus surface changes nothing; otherwise the selection devices follow |
| DragTarget.DragProtocolHolds | server/drag_pool.cpp:176-240 | Over every run each device's log follows (enter motion* (leave or drop))* and is open exactly while the device is a target; targets exist only under a target surface, of its client |
| DragTarget.LogIsSessions | server/drag_pool.cpp:284-303 | A log accepted so is a row of whole sessions, with an open one behind it exactly when the device is entered |
| DragTarget.NobodyStaysEntered | server/drag_pool.cpp:36-68 | After drop or cancel nobody is entered, origin and target are empty, and just the entered devices got one last event, drop or leave |
| DragTarget.StepKeeps | server/drag_pool.cpp:81-174 | Every operation keeps the protocol invariant |
| DragTarget.TargetsFallShortIff | server/drag_pool.cpp:176-209 | The targets stay all data devices of the target surface's client, in order, on every step but one: they fall short exactly when a device of that client registers meanwhile |
| DragTarget.TargetsFallShortRun | server/drag_pool.cpp:176-209 | A run from the start that does it: the late device hears nothing of the drag |
| DragTarget.StaleSourceClearsIff | server/drag_pool.cpp:150-151 | Destroying a source other than the current one clears a drag in progress if and only if that source was dragged before |
| DragTarget.ResetsAreDragged | server/drag_pool.cpp:57-68 | After any run the living connections are told by the operations alone: those that clear the origin belong to the sources dragged and not destroyed, those that cancel to the drags neither dropped nor cancelled, an overwritten drag included |
| DragTarget.StaleSourceLeavesTargets | server/drag_pool.cpp:151-163 | After any run that leaves a drag over a surface, destroying a source ends the drag and leaves the targets entered if and only if that source was dragged before and all its drags were dropped or cancelled |
| DragTarget.StaleSourceRun | server/drag_pool.cpp:126-174 | A run from the start that does it: the second drag is over, its own source lives, and the device is entered |
| DragTarget.CancelReportsADrop | server/drag_pool.cpp:57-68 | For every step: a source is told that the drop was performed exactly when the step drops or cancels a drag it is the source of, and not when the drag ends with its destruction |
| DragTarget.ReportsAreEnds | server/drag_pool.cpp:57-68 | Over any run a source was told of as many drops as its drags were dropped or cancelled |
| DragHistory.TargetIsWhereItWasMoved | server/drag_pool.cpp:81-219 | After any run, by the operations alone: the surface under the drag, where and how the drag began, its source and the motion passed on; only devices of that surface's client are targets |
| DragHistory.StepTells | server/drag_pool.cpp:81-340 | Every step tells each data device exactly this: a newly targeted surface is entered by its client's devices, once, with a fresh serial, after the old targets left; motion goes to the targets of a drag of that kind |
| DragHistory.NewDeviceHearsNothing | server/drag_pool.cpp:193-219 | A data device that registers during a drag is told nothing of it |
| DragHistory.StepTellsSource | server/drag_pool.cpp:57-68 | Every step tells the source exactly that no device takes the drag, or that it was dropped; only a new target draws a serial |
| DragTarget.DragPool.Start | server/drag_pool.cpp:126-174 | Records the origin and its connections and enters the origin surface, leaving any older targets |
| DragTarget.DragPool.SetTarget | server/drag_pool.cpp:81-104 | The same surface changes nothing, another one is left and entered with a new serial |
| DragTarget.DragPool.UpdateTarget | server/drag_pool.cpp:176-220 | Leaves the old targets, enters every data device of the surface's client, tells the source when there is none |
| DragTarget.DragPool.CancelTarget | server/drag_pool.cpp:284-303 | Every target leaves and motion is disconnected |
| DragTarget.DragPool.Drop | server/drag_pool.cpp:43-55 | Every target gets a drop and no leave |
| DragTarget.DragPool.Cancel | server/drag_pool.cpp:36-41 | Every target leaves and the drag ends |
| DragTarget.DragPool.SourceDestroyed | server/drag_pool.cpp:151-163 | Clears the origin, then cancels, as far as the connections exist |
| PointerGrab.GrabNamesThePress | server/pointer_pool.cpp:340-348 | After any run that leaves no serial 2^32 draws behind, a serial is accepted exactly when the press that holds some button down was sent with it, and it names one button; for every order the container may have |
| PointerGrab.GrabNamesTheLastPress | server/pointer_pool.cpp:340-348 | The same by the operations alone: the serial is accepted exactly when it was drawn for a press that is the last operation on its button |
| PointerGrab.GrabIsExactIff | server/pointer_pool.cpp:340-348 | For every order of the container the answer is right if and only if no pressed and no released button share the serial |
| PointerGrab.OldSerialIsAmbiguous | server/pointer_pool.cpp:237-281 | Without the bound the answer can be wrong: from any start, a release, 2^32 - 1 other draws and a press end in a state where both buttons share the serial and some container order refuses the press |
| PointerGrab.ButtonKeeps | server/pointer_pool.cpp:113-121 | The two maps always agree with the history of presses and releases |
| PointerGrab.PointerPool.ButtonPressed | server/pointer_pool.cpp:237-245 | Stores a fresh serial and the pressed state |
| PointerGrab.PointerPool.ButtonReleased | server/pointer_pool.cpp:262-267 | Stores a fresh serial and the released state |
| PointerGrab.PointerPool.HasImplicitGrab | server/pointer_pool.cpp:340-348 | An accepted serial belongs to a pressed button; a wrong refusal needs a shared serial |
| TouchPoints.TouchViewAgrees | server/touch_pool.cpp:105-159 | After any run a focused device believes those points to be down that are, as far as they went down after it was created; an unfocused one believes in none |
| TouchHistory.DevicesKnowWhatIsDown | server/touch_pool.cpp:105-159 | After any run, by the operations alone: a device of the client under the touch believes those points to be down that went down since it was created and were neither lifted nor cancelled; any other believes in none |
| TouchHistory.StepTells | server/touch_pool.cpp:88-159 | Every step tells each device exactly its down, up or cancel event, with the serial drawn for it |
| TouchHistory.SerialsAreKept | server/touch_pool.cpp:130-134 | A point keeps the serial that was sent with its down event |
| TouchPoints.StepKeeps | server/touch_pool.cpp:49-159 | Every operation keeps that, and the order of the serials |
| TouchPoints.NewIdIsFresh | server/touch_pool.cpp:105-107 | A new id is that of no living point, for the pool and for every client |
| TouchPoints.GrabNamesOnePoint | server/touch_pool.cpp:212-220 | Serials are drawn in the order of the ids, and fewer than 2^32 draws apart they differ |
| TouchPoints.StrangePointIff | server/touch_pool.cpp:49-60 | A device is told of the end of a point it never saw exactly when it was created during that touch |
| TouchPoints.TouchPool.TouchDown | server/touch_pool.cpp:105-134 | The next id, a fresh serial, and a down event to every focused device |
| TouchPoints.TouchPool.TouchUp | server/touch_pool.cpp:136-159 | An up event to every focused device, and the point is forgotten |
| TouchPoints.TouchPool.CancelSequence | server/touch_pool.cpp:195-205 | Every focused device is told to cancel, and all points are forgotten |
| TouchPoints.TouchPool.SurfaceDestroyed | server/touch_pool.cpp:88-96 | A running sequence is cancelled on the devices, the focus is cleared, the points stay |
| TouchPoints.TouchPool.HasImplicitGrab | server/touch_pool.cpp:212-220 | Accepts exactly the serials of living points, and none without a focus surface |
| DmabufParams.DescriptorsAreConserved | server/linux_dmabuf_v1.cpp:164-172 | After any run the descriptors given to add are, counted with multiplicity, those in the slots, in the buffer and closed; once the objects are gone each was closed as often as it was given |
| DmabufParams.StepKeeps | server/linux_dmabuf_v1.cpp:221-271 | Every operation keeps that ledger |
| DmabufParams.TakenSlotsAreThePrefix | server/linux_dmabuf_v1.cpp:291-300 | If the counter equals the number of taken slots and the first of them have no hole, they are exactly 0..count-1 and hold every descriptor |
| DmabufParams.CreateKeeps | server/linux_dmabuf_v1.cpp:235-259 | Resetting all four slots after an import forgets no descriptor |
| DmabufParams.CounterIsOccupancy | server/linux_dmabuf_v1.cpp:363-410 | The counter stays within the slots and equals the number of taken ones until a buffer was asked for |
| DmabufParams.CreateSucceedsIff | server/linux_dmabuf_v1.cpp:273-361 | Validation succeeds exactly when nothing was asked before, the taken slots are 0..count-1 with count positive, both dimensions are nonzero as unsigned numbers, and no plane is out of bounds |
| DmabufParams.SizeCheckIsSoundIff | server/linux_dmabuf_v1.cpp:310-358 | The check of the first plane guarantees that the plane fits the file, whatever its size, if and only if stride times height stays within 32 bits |
| DmabufParams.WidePlaneRun | server/linux_dmabuf_v1.cpp:221-361 | A run from the start that gets a buffer whose plane does not fit: 65536 rows of 65536 bytes in a file of one row |
| DmabufParams.SizeCheckIsExact | server/linux_dmabuf_v1.cpp:310-358 | While stride times height stays within 32 bits a plane passes exactly when its ends are 32-bit numbers and its first row, for the first plane all rows, lie within the file or the file size is unknown |
| DmabufHistory.SlotsAreWhatWasAdded | server/linux_dmabuf_v1.cpp:221-410 | After any run, by the requests alone: every slot holds the plane accepted for its index, a buffer is made of exactly these planes in the order of their indices, and all have one modifier |
| DmabufHistory.StepReplies | server/linux_dmabuf_v1.cpp:221-410 | Every request is answered exactly so, with the first refusal that applies: used before, bad index, taken index, other modifier; or used before, a gap, no size, a plane out of bounds |
| DmabufParams.BufferParams.Add | server/linux_dmabuf_v1.cpp:363-410 | Refusals close the descriptor and post their error in this order; success fills the slot |
| DmabufParams.BufferParams.ValidateParams | server/linux_dmabuf_v1.cpp:273-361 | The loops post the first error that applies, or none |
| DmabufParams.BufferParams.Create | server/linux_dmabuf_v1.cpp:221-271 | Without the global nothing happens; otherwise the error, the failure or the buffer with its planes |
| DmabufParams.Kernel.CloseAll | server/linux_dmabuf_v1.cpp:164-172 | Closes the descriptors that are there, in order |
| DmabufParams.Buffer.Destroy | server/linux_dmabuf_v1.h:74-81 | The buffer closes its descriptors |
| Devices.FilterIsSubsequence | server/utils.h:25-39 | The devices of a surface come in the order of all devices |
| Devices.RemoveOneIsWithout | server/utils.h:76-85 | Erasing the first occurrence from a duplicate-free list removes the element |

## Left out

- Surface and buffer damage, tracked damage and region geometry; a region is a set of pixels.
- Shadow, blur, contrast and slide objects, pointer constraints, idle inhibitors, outputs a surface is on, viewport error checks and transforms of coordinates.
- Xdg, layer and input-method surfaces: the hooks a commit calls for them, and roles other than the subsurface.
- Buffers after they are committed: release events and `setCommitted`. A buffer is the request that attached it and its size.
- SurfaceTree.Subsurface.Create: requires that the surface has no role and that the parent does not lie below it, which the server leaves to its clients.
- SurfaceTree.Subsurface.SetMode: requires a parent when turning desynchronized, as the code dereferences it.
- SurfaceTree.Surface.Destroy: in the tree a dangling pointer counts as no parent, and the contract says whose pointers dangle; what the original does once it follows one is undefined and not modelled.
- SurfaceTree.Surface.Commit: the hooks of shell, layer and input-method surfaces and the `committed` signal are not modelled.
- SurfaceTree.Surface.UpdateCurrentState: viewport errors and the commits of pointer constraints are not modelled.
- SurfaceTree.Surface.CopyToCurrent: shadow, blur, contrast and slide are not modelled, nor is damage.
- SurfaceTree.Surface.UpdateBuffer: damage and `setCommitted` are not modelled.
- SurfaceTree.Surface.AttachBuffer: the damage it resets is not modelled, nor is `had_buffer_attached`.
- SurfaceTree.Surface.PresentationFeedback: requires a waiting id, as the assertion in the code does; likewise PresentationDiscarded. Timing data of the answers is not modelled.
- Callbacks.CallbacksAreFifoIff: requires distinct callbacks, as protocol objects are; a frame callback that the client destroys itself is not modelled.
- SurfaceSize.CommitAnnouncesSizes: requires a nonzero scale and a valid buffer size, without which the size is not defined; rounding is to the nearest integer on real numbers.
- KeyboardFocus.ClientViewAgrees: `update_key` called by others than `key` is not part of the runs, since it changes the keys without telling anyone. A keymap is its pointer, as the pool compares it; files are not modelled. The order of the keys in an enter event is unspecified, so it is a set.
- Clients that disconnect: their keyboards and surfaces are destroyed one by one, and what is sent to them in between reaches nobody.
- SelectionFocus.SelectionPool.SourceDestroyed: devices withdraw a source in list order; the original does so in the order they set it, which changes only the order of cancel events. A source is cancelled once more by every device that has it when it is destroyed, as in the original, though its client is not there to hear it. Offers, MIME types and the data-control devices are not modelled.
- SelectionFocus.SelectionPool.SeatSetFocus: primary selection, keyboards and text inputs, which the same function moves, are not part of this pool.
- DragTarget.DragPool.SetTarget: positions and the moves of pointer and touch are not modelled; the drag mode that its overload asserts is not required.
- DragTarget.DragPool.UpdateTarget: offers and their action notifiers are not modelled.
- DragTarget.DragPool.Start: the origin surface is given, as the only caller ensures, and the implicit grab that chooses the mode is a parameter. Positions, transformations, the icon, and the negotiation of drag actions are not modelled.
- Pointer focus, the button, axis and motion events sent to pointers, gestures and relative motion; touch motion and frames, and the events that emulate a pointer for touch.
- PointerGrab.PointerPool.ButtonPressed: the event to the focused pointers and the early return during a drag are not modelled.
- PointerGrab.PointerPool.ButtonReleased: the drop of a pointer drag and the event to the focused pointers are not modelled.
- TouchPoints.TouchPool.TouchDown: positions and the emulated pointer are not modelled.
- TouchPoints.TouchPool.CancelSequence: the cancellation of a touch drag is a separate operation of the drag module.
- TouchPoints.TouchPool.TouchUp: the drop of a touch drag is a separate operation of the drag module. Ids are unbounded integers, where the original has 32 bits.
- PointerGrab.GrabNamesThePress: requires that no button was last used 2^32 serials ago; beyond that `OldSerialIsAmbiguous` is a counterexample.
- DmabufParams.DescriptorsAreConserved: a failing import takes no ownership and a successful one makes a buffer of the planes it is given; both are up to the consumer. `lseek` results are parameters. Descriptor numbers are those the client sends, counted with multiplicity. Formats, modifiers sent to the client and the list of pending objects are not modelled.
- Text inputs, primary-selection managers, capabilities that change at run time, and all protocol plumbing: sockets, resources, globals and error codes beyond those named.
