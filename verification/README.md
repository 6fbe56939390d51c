# OS/161 kernel: arithmetic, allocator, threads, processes and files

A Dafny model of the parts of an OS/161 kernel whose correctness rests on
invariants rather than on single functions, with proofs about every input or
every reachable state.

- **Arithmetic** (`Words`, `Digits`, `Qdivrem`, `Muldi3`, `Divdi3`, `Bswap`).
  Division by Knuth's Algorithm D on arrays of 16-bit digits, Knuth's
  three-multiplication product, and C99's truncating division and remainder
  on top; byte swapping. Unsigned wrap-around is written out.
- **The kernel heap** (`FreeList`, `PageLists`, `Pagerefs`, `Heap`,
  `HeapSteps`, `HeapFree`, `HeapThreads`, `Kmalloc`). A state holds the memory
  words the free lists run through, the fields of the pagerefs, both page
  lists, the pageref bitmaps and, for each allocation that has dropped the
  spinlock, what it holds. Each method of `Kmalloc.Kheap` is one stretch of
  code under the lock; since every one keeps the invariant and says what it
  leaves alone of the other threads' allocations, any interleaving of
  stretches is covered. The abstraction is the set of live blocks.
- **The thread system** (`Scheduler`, `ThreadList`, `Migration`,
  `Interrupts`, `Hangman`, `Locks`, `Semaphores`, `Queues`). CPUs and threads are a state
  with one event for each section run under a spinlock; invariants are proved
  of every step and lifted to every run. Lists, migration, spl and spinlock
  functions, the deadlock detector, locks and semaphores are also given in
  imperative form and tied to the events.
- **Processes** (`Pid`). Waiting and exiting down to the hand-off inside the
  condition variable: taking its spinlock, dropping the table lock, going to
  sleep and being woken are separate events.
- **Reference counts** (`Vnode`, `FileTable`, `FileRuns`). The protocol that
  hands a vnode's last reference to reclaim, with the lookup that may come
  between; and descriptors, open files and vnode references over every
  sequence of open, close, dup2, read, write, lseek, fork, exit and exec.
- **User-level semaphores** (`UserSem`, `SemLife`). Counting and waking in the
  semaphore file system; and removing a semaphore while its vnode is
  reclaimed, access by access.
- **File blocks** (`Bitmap`, `Sfs`). The byte-array bitmap, and the block map
  and truncation of SFS over it.
- **Printing and parsing** (`Numerals`, `Format`, `Printf`, `Directives`,
  `Atoi`, `RoundTrip`). `Format` says what a format string means one directive at a
  time; `Printf` is the character-at-a-time code, with the number buffer and
  snprintf's buffer; `Directives` says what is printed in terms of values and
  padding; `RoundTrip` reads back with `atoi` what was printed.

`dafny verify dfyconfig.toml` verifies everything.

Some claims one might expect do not hold of the code. Each has an input or a
run that shows it, and the exact condition under which it holds.

- `kmalloc` covers the request: not above 2^32 - 4096 bytes
  (`Kmalloc.NPagesWraps`, `Kmalloc.NPagesCover`).
- `kfree` of a live block succeeds: not when the block is the last of its page
  and an earlier root has pagerefs in use but no page
  (`Kmalloc.KfreeCanPanic`, `Kmalloc.Kheap.Free`).
- `sfs_itrunc` keeps what is below the new length: not when the length in
  blocks does not fit 32 bits (`Sfs.TruncLosesBelow`, `Sfs.TruncKeepsBelow`).
- `sfs_itrunc` frees what is past the new length: not an indirect block right
  at it (`Sfs.TruncIncomplete`, `Sfs.TruncComplete`).
- A reference count is the number of descriptors: not after an exec with open
  descriptors (`FileRuns.ExecForgets`, `FileRuns.ExactIffCleanExecs`).
- A reader of a user-level semaphore does not sleep beside a positive count:
  not when a write raises a count that is already positive to more than the
  woken readers want (`UserSem.WakeupLost`, `UserSem.CoveredIffNeverSkips`,
  `UserSem.LostIffNotCovered`).
- A removed semaphore is destroyed once: not when reclaim comes to it while
  removal has its lock (`SemLife.BothClear`, `SemLife.RunFailsIff`).
- `bswap64` reverses the bytes, and is its own inverse: only when some of them
  are 0 (`Bswap.Bswap64Reverses`, `Bswap.Bswap64Twice`,
  `Bswap.Bswap64NoInvolution`).
- `atoi` reads back what `%d` prints: not with zeros padded on the right
  (`RoundTrip.ZerosOnTheRight`, `RoundTrip.PrintThenParse`).

## Model

| member | source | states |
|---|---|---|
| `Qdivrem.Divide` | common/gcc-millicode/qdivrem.c:67-263 | for all 64-bit u and v: divide by zero is reported exactly when v is 0; otherwise 0 <= u - q*v < v on all three paths, and the remainder is stored exactly when one is asked for |
| `Qdivrem.DivideFrom` | common/gcc-millicode/qdivrem.c:112-262 | the quotient and remainder of the whole numbers from the digits, whatever leading zeros divisor and dividend have |
| `Qdivrem.LongDivide` | common/gcc-millicode/qdivrem.c:157-262 | normalise, divide and shift back yields the quotient digits and remainder of the unshifted numbers |
| `Qdivrem.DivideAll` | common/gcc-millicode/qdivrem.c:176-240 | the m rounds leave in q the digits of the quotient and in u the remainder, no index out of bounds |
| `Qdivrem.DivideDigit` | common/gcc-millicode/qdivrem.c:182-240 | one round of Algorithm D: q is the true digit, 0 <= r < v afterwards, one add-back at most |
| `Qdivrem.EstimateDigit` | common/gcc-millicode/qdivrem.c:193-210 | the corrected estimate is the largest digit q with q*(v1 v2) at most (u0 u1 u2); its 32-bit products never wrap |
| `Qdivrem.EstimateIsNearlyExact` | common/gcc-millicode/qdivrem.c:167-210 | the corrected estimate is the true quotient digit or one more |
| `Qdivrem.MulSub` | common/gcc-millicode/qdivrem.c:217-223 | u - qhat*v modulo the power of the base; a borrow comes out exactly when the result would be negative |
| `Qdivrem.AddBack` | common/gcc-millicode/qdivrem.c:230-238 | adds v back, with the carry out of the top digit accounted for |
| `Qdivrem.NoBorrowMeansExact` | common/gcc-millicode/qdivrem.c:217-230 | no borrow: the estimate was the digit |
| `Qdivrem.BorrowMeansOneTooMany` | common/gcc-millicode/qdivrem.c:224-238 | a borrow: the estimate was one too many and a single add-back restores the remainder |
| `Qdivrem.Shl` | common/gcc-millicode/qdivrem.c:270-279 | the digits are shifted left in place, as a number: times 2^sh, less the bits that leave at the top |
| `Qdivrem.Unshift` | common/gcc-millicode/qdivrem.c:247-254 | the remainder is divided by 2^d exactly, in place |
| `Qdivrem.NormalisingShift` | common/gcc-millicode/qdivrem.c:169-171 | the shift brings the leading divisor digit to at least half the base and no further |
| `Qdivrem.Normalise` | common/gcc-millicode/qdivrem.c:169-175 | both numbers are multiplied by the same power of two and nothing overflows |
| `Qdivrem.ShortDivide` | common/gcc-millicode/qdivrem.c:136-148 | division by a single digit: quotient and remainder of the whole number |
| `Muldi3.Lmulq` | common/gcc-millicode/muldi3.c:183-241 | the exact 64-bit product of any two 32-bit numbers |
| `Muldi3.Muldi3` | common/gcc-millicode/muldi3.c:99-164 | a*b modulo 2^64 for all signed inputs, the most negative included |
| `Muldi3.Accumulate` | common/gcc-millicode/muldi3.c:214-235 | the shifted sums with their hand-written carry and borrow tests add up modulo 2^64 |
| `Muldi3.ThreeProducts` | common/gcc-millicode/muldi3.c:132-156 | the three-multiplication identity with the sign of the middle product |
| `Divdi3.Divdi3` | common/gcc-millicode/divdi3.c:44-62 | the quotient truncated toward zero, modulo 2^64, as in section 6.5.5 of ISO C99; trap exactly on a zero divisor |
| `Divdi3.Moddi3` | common/gcc-millicode/moddi3.c:45-62 | the remainder that goes with the truncated quotient |
| `Divdi3.TruncatedIsUnique` | common/gcc-millicode/divdi3.c:44-62 | only one quotient and remainder meet the C99 definition |
| `Divdi3.QuotientAndRemainderGiveBack` | common/gcc-millicode/moddi3.c:45-62 | q*b + r is a again, modulo 2^64 |
| `Bswap.Bswap32Reverses` | kern/lib/bswap.c:53-60 | the bytes come out in reverse order |
| `Bswap.Bswap64Reverses` | kern/lib/bswap.c:62-73 | the bytes come out in reverse order if and only if bytes 4 and 5 of the argument are 0 |
| `Bswap.Bswap64Twice` | kern/lib/bswap.c:62-73 | applied twice it gives the argument back if and only if its four middle bytes are 0 |
| `Hangman.WaitClosesCycle` | kern/thread/hangman.c:50-129 | the new edge makes the waits-for graph cyclic if and only if the walk from the lock reaches the actor |
| `Hangman.WalkNeverRepeats` | kern/thread/hangman.c:50-67 | on an acyclic graph the walk visits no actor twice |
| `Hangman.WalkEnds` | kern/thread/hangman.c:50-67 | so the walk ends, at an actor that waits for nothing or for a free lock |
| `Hangman.AcquireKeepsAcyclic` | kern/thread/hangman.c:131-157 | taking a lock keeps the graph acyclic |
| `Hangman.ReleaseKeepsAcyclic` | kern/thread/hangman.c:159-182 | letting go of one keeps it acyclic |
| `Hangman.Detector.Check` | kern/thread/hangman.c:50-67 | the loop terminates on an acyclic graph and finds the actor exactly when it is reachable |
| `Hangman.Detector.Wait` | kern/thread/hangman.c:109-129 | deadlock is reported exactly when the edge would close a cycle; otherwise the edge is added and the graph stays acyclic |
| `Hangman.Detector.Acquire` | kern/thread/hangman.c:131-157 | the waiting edge turns into a holding edge; each failed assertion is told apart |
| `Hangman.Detector.Release` | kern/thread/hangman.c:159-182 | the holding edge is removed; each failed assertion is told apart |
| `Locks.ExecKeepsInv` | kern/thread/synch.c:184-223 | every step keeps: one holder, sleepers are waiters, and a free lock with sleepers has a woken thread on its way; the only way to stop is a deadlock or a release by a non-holder |
| `Locks.AllRunsKeepInv` | kern/thread/synch.c:184-223 | the same in every state of every interleaving |
| `Locks.NoDeadlock` | kern/thread/synch.c:184-206 | in every state reached, from any waiting thread the chain of holders leads to one that can go on |
| `Locks.OnlyHolderReleases` | kern/thread/synch.c:208-223 | a lock changes from held to free only by its holder |
| `Locks.LockTable.LockAcquire` | kern/thread/synch.c:184-206 | lock_acquire up to its first sleep: the lock is taken if free, otherwise the thread is last on its channel; nothing else changes, and nothing at all when the detector or the assertion stops it |
| `Locks.LockTable.LockRetry` | kern/thread/synch.c:184-206 | a woken thread going round the loop: the same |
| `Locks.LockTable.LockRelease` | kern/thread/synch.c:208-223 | refused exactly for a non-holder; otherwise the lock is free and the first sleeper, if any, is woken |
| `Locks.ChannelsAreFifo` | kern/thread/thread.c:1024-1051 | in every run, those woken from a lock's channel followed by those still asleep are those who went to sleep, in order |
| `Semaphores.ExecKeepsInv` | kern/thread/synch.c:88-135 | every step keeps count = initial + V - P >= 0, and while threads sleep the count is at most the number of woken threads yet to retake the spinlock |
| `Semaphores.AllRunsKeepInv` | kern/thread/synch.c:88-135 | the same in every state of every interleaving |
| `Semaphores.SettledMeansUsed` | kern/thread/synch.c:88-135 | once the woken threads have run, nobody sleeps beside a positive count |
| `Semaphores.Semaphore.TryP` | kern/thread/synch.c:88-121 | one turn of the loop of P: a unit is taken, or the thread is last on the channel |
| `Semaphores.Semaphore.Signal` | kern/thread/synch.c:123-135 | V: one unit more and the first sleeper woken; refused exactly when the count would wrap |
| `Semaphores.ChannelIsFifo` | kern/thread/thread.c:1024-1051 | in every run threads are woken in the order in which they went to sleep |
| `Scheduler.ExecKeepsInv` | kern/thread/thread.c:459-776 | no step crashes; every thread stays in exactly one place, on lists of the CPU its t_cpu names, in the state its place demands |
| `Scheduler.AllRunsKeepInv` | kern/thread/thread.c:459-1084 | the same in every state of every run from boot |
| `Scheduler.StacksAreExclusive` | kern/thread/thread.c:569-737 | no kernel stack is used by two CPUs, also while a CPU idles on the stack of a requeued thread |
| `Scheduler.MigrationConserves` | kern/thread/thread.c:856-959 | a migration step neither loses nor invents a ready thread, with any interference |
| `Scheduler.MigPushKeepsInv` | kern/thread/thread.c:891-942 | a victim handed over is never the current thread, never from an empty list, and fills the target at most to its share |
| `Scheduler.MigGrabKeepsInv` | kern/thread/thread.c:882-889 | pulling the victims never meets an empty queue though other CPUs may have added threads since the count |
| `Scheduler.ExorciseKeepsInv` | kern/thread/thread.c:297-308 | a zombie destroyed is nobody's current thread and on no list |
| `Scheduler.System.ThreadSwitch` | kern/thread/thread.c:569-650 | the thread goes to the end of its run queue, of the channel it sleeps on or of its CPU's zombies, and every other list, record and CPU is as before; a yield with nothing to run does nothing |
| `Scheduler.System.NextThread` | kern/thread/thread.c:651-672 | the idle loop takes the first thread of its own run queue; nothing else changes |
| `Scheduler.System.ExorciseAll` | kern/thread/thread.c:297-308 | exactly the zombies of the CPU are destroyed |
| `Scheduler.System.MakeRunnable` | kern/thread/thread.c:459-491 | the woken thread goes to the tail of its own CPU's run queue; nothing else changes |
| `Scheduler.System.WakeOne` | kern/thread/thread.c:1024-1051 | the first sleeper, if any, goes to the end of its CPU's run queue; every other list is as before |
| `Scheduler.System.WakeAll` | kern/thread/thread.c:1053-1084 | the channel is empty and each run queue has grown by the sleepers of its CPU, in the order in which they had gone to sleep |
| `Scheduler.ChannelsAreFifo` | kern/thread/thread.c:1005-1084 | in every run from boot, those taken off a wait channel followed by those on it are those who went to sleep on it, in order |
| `Scheduler.SleepsUntilWoken` | kern/thread/thread.c:1005-1084 | a thread asleep stays on its channel until a wakeup of that channel finds it first |
| `Interrupts.ExecKeepsInv` | kern/thread/spl.c:86-160 | every step keeps: a running thread's count is its spl plus its CPU's spinlocks, interrupts are on exactly when it is 0, a switched-out or new thread has its spl plus one; panics only on a spinlock taken twice |
| `Interrupts.AllRunsKeepInv` | kern/thread/thread.c:543-776 | the same across any run of spl, spinlock, fork, switch and interrupt events, interrupts taken in the idle loop included |
| `Interrupts.NoInterruptUnderSpinlock` | kern/arch/mips/locore/trap.c:161-207 | an interrupt finds its CPU holding no spinlock and spinning for none: at level 0 with count 0, or in the idle loop at high level with count 1 |
| `Interrupts.SleepSwitchBalances` | kern/thread/thread.c:569-737 | the whole sequence of a sleep, from splhigh to the switch and the unlock on the other side, keeps the books of both threads |
| `Interrupts.Machine.SplRaise` | kern/thread/spl.c:86-104 | one more on the count; from balanced books interrupts are off afterwards, and nothing else changes |
| `Interrupts.Machine.SplLower` | kern/thread/spl.c:106-124 | undoes one splraise: from balanced books, raising again gives the old state back; interrupts come on with the last |
| `Interrupts.Machine.SplX` | kern/thread/spl.c:126-160 | the level becomes the one asked for, the old one is returned, the books stay balanced |
| `Interrupts.Machine.SpinlockAcquire` | kern/thread/spinlock.c:75-94 | the part before the spin loop is the machine step |
| `Interrupts.Machine.SpinlockTaken` | kern/thread/spinlock.c:96-122 | the successful test-and-set is the machine step |
| `Interrupts.Machine.SpinlockRelease` | kern/thread/spinlock.c:127-142 | the release is the machine step |
| `ThreadList.List.constructor` | kern/thread/threadlist.c:60-72 | an empty list |
| `ThreadList.List.InsertAfterNode` | kern/thread/threadlist.c:105-120 | the node is linked in right after the given one; all other neighbours are as before |
| `ThreadList.List.InsertBeforeNode` | kern/thread/threadlist.c:125-140 | the node is linked in right before the given one |
| `ThreadList.List.RemoveNode` | kern/thread/threadlist.c:145-157 | the node is unlinked and its own links cleared |
| `ThreadList.List.AddHead` | kern/thread/threadlist.c:162-170 | the contents grow at the front, the count with them |
| `ThreadList.List.AddTail` | kern/thread/threadlist.c:172-180 | the contents grow at the end |
| `ThreadList.List.RemHead` | kern/thread/threadlist.c:182-198 | the first thread comes off; null exactly for the empty list |
| `ThreadList.List.RemTail` | kern/thread/threadlist.c:200-216 | the last thread comes off; null exactly for the empty list |
| `ThreadList.List.InsertAfter` | kern/thread/threadlist.c:218-224 | the thread stands right behind the given one |
| `ThreadList.List.InsertBefore` | kern/thread/threadlist.c:226-232 | the thread stands right before the given one |
| `ThreadList.List.Remove` | kern/thread/threadlist.c:234-240 | exactly that thread is gone |
| `ThreadList.List.IsEmpty` | kern/thread/threadlist.c:91-97 | tells whether the contents are empty |
| `Migration.RunQueues.ConsiderMigration` | kern/thread/thread.c:856-959 | without interference: with share the average rounded up, a shorter queue changes nothing; otherwise the CPU keeps its first share threads, and the current thread, and the others go in order to the ends of the other queues, each filled to the share before the next; no thread is lost or made up |
| `Migration.ShareIsShare` | kern/thread/thread.c:877 | the share is the average rounded up: n * (share - 1) < total <= n * share |
| `Migration.NothingLeft` | kern/thread/thread.c:865-882 | rounding up leaves room on the other CPUs for all that is to be sent |
| `Migration.FillOne` | kern/thread/thread.c:896-941 | victims are dealt in order to the end of one queue, the current thread going to the end of the victims, until the share is reached or none is left to send |
| `Migration.Spread` | kern/thread/thread.c:891-942 | the loop over the CPUs: what the queues have got, in order, is what was dealt, and each is full before the next gets any |
| `Migration.Finished` | kern/thread/thread.c:944-958 | only the current thread can be left over |
| `Migration.KeepsThreads` | kern/thread/thread.c:856-959 | every thread stands on the queues as often as before |
| `Migration.KeepsShare` | kern/thread/thread.c:856-959 | the queue that sent threads is left with exactly its share when the current thread is not among those beyond it |
| `FreeList.LinkedUnique` | kern/vm/kmalloc.c:142-144 | the memory determines a free list |
| `FreeList.ChainLength` | kern/vm/kmalloc.c:1140 | distinct blocks of a page are at most as many as fill it |
| `FreeList.FullChain` | kern/vm/kmalloc.c:1141-1148 | a free list of that length holds every block |
| `FreeList.BlockGap` | kern/vm/kmalloc.c:128-132 | two blocks of a page are a block size apart |
| `PageLists.Unlink` | kern/vm/kmalloc.c:822-845 | one loop of remove_lists: exactly the page is unlinked |
| `PageLists.OfTypeCut` | kern/vm/kmalloc.c:822-845 | unlinking from the list of all pages is unlinking from the list of its type, and no other |
| `Pagerefs.FindClear` | kern/vm/kmalloc.c:256-298 | the lowest pageref not in use; none exactly when all 4096 are |
| `Pagerefs.FindInRoot` | kern/vm/kmalloc.c:273-292 | the first clear bit of a root, words first |
| `Pagerefs.TakeOk` | kern/vm/kmalloc.c:280-282 | numinuse stays the number of set bits; roots are filled in order |
| `Pagerefs.DropOk` | kern/vm/kmalloc.c:325-333 | clearing a used bit keeps numinuse exact |
| `Pagerefs.Free` | kern/vm/kmalloc.c:303-337 | clears exactly that pageref's bit; panics exactly when an earlier root has pagerefs in use but no page |
| `Pagerefs.PanicNeedsFullRoot` | kern/vm/kmalloc.c:316-320 | that takes a root all of whose 256 pagerefs are in use while its page never came |
| `Pagerefs.PanicCanHappen` | kern/vm/kmalloc.c:280-320 | bitmaps in good order, as 256 refused pageref pages leave them, for which the assertion fails |
| `Heap.BlocksAreDisjoint` | kern/vm/kmalloc.c:873-1160 | live and free blocks of all pages are pairwise disjoint, aligned to their size and inside their page |
| `Heap.LiveOnce` | kern/vm/kmalloc.c:873-1160 | two live blocks are the same or disjoint |
| `HeapSteps.PopKeepsInv` | kern/vm/kmalloc.c:922-942 | taking the first free block keeps the heap invariant |
| `HeapSteps.PopMakesLive` | kern/vm/kmalloc.c:922-942 | the block taken was not live; no other block changed |
| `HeapSteps.BuiltLinked` | kern/vm/kmalloc.c:998-1008 | the loop leaves every block of a fresh page on one free list |
| `HeapSteps.PagedKeepsInv` | kern/vm/kmalloc.c:989-1014 | putting a fresh page on both lists keeps the invariant |
| `HeapSteps.PagedSameLive` | kern/vm/kmalloc.c:989-1014 | and makes no block live |
| `HeapFree.ClientWriteKeepsInv` | kern/vm/kmalloc.c:873-1160 | whatever its owner writes to a live block, all free lists and lists stay intact |
| `HeapFree.PushKeepsInv` | kern/vm/kmalloc.c:1105-1140 | pushing a live block on its page's free list keeps the invariant, nfree not above the page's blocks |
| `HeapFree.PushReleases` | kern/vm/kmalloc.c:1105-1138 | exactly the freed block stops being live |
| `HeapFree.UnlistKeepsInv` | kern/vm/kmalloc.c:1141-1148 | a wholly free page leaves both lists and the bitmap consistently |
| `HeapFree.UnlistSameLive` | kern/vm/kmalloc.c:1141-1148 | no live block goes with it |
| `HeapThreads.ReserveKeepsInv` | kern/vm/kmalloc.c:256-298 | reserving the lowest pageref for one allocation keeps everybody else's |
| `HeapThreads.RefPageInKeepsInv` | kern/vm/kmalloc.c:218-251 | installing a pageref page keeps the invariant |
| `HeapThreads.GoneKeepsInv` | kern/vm/kmalloc.c:968-987 | a failed allocation gives its page back and leaves its bit set |
| `Kmalloc.BlockType` | kern/vm/kmalloc.c:848-866 | the smallest type that fits |
| `FreeList.SizesDouble` | kern/vm/kmalloc.c:129 | the sizes are 16 and on, each twice the one before |
| `Kmalloc.Kheap.constructor` | kern/vm/kmalloc.c:211-213 | the empty heap: no live block |
| `Kmalloc.Kheap.FindFree` | kern/vm/kmalloc.c:914-920 | a page of the type with a free block; none exactly when no page of the type has one |
| `Kmalloc.Kheap.TakeBlock` | kern/vm/kmalloc.c:922-942 | the first free block, nfree and freelist_offset updated, as the step |
| `Kmalloc.Kheap.Begin` | kern/vm/kmalloc.c:873-966 | either a block of the best fitting type, not live before, or no page of the type has a free block |
| `Kmalloc.Kheap.GotPage` | kern/vm/kmalloc.c:967-1018 | after alloc_kpages: fails exactly without page or pageref; a block returned was not live; other allocations in progress are untouched; only the new page is written to, and it is in use exactly when the allocation goes on |
| `Kmalloc.Kheap.RefPageArrived` | kern/vm/kmalloc.c:218-296 | the pageref page is installed only if there is none yet and never replaced; a surplus one is given back; which pages are in use afterwards; only the page waiting to be set up is written to |
| `Kmalloc.Kheap.Finish` | kern/vm/kmalloc.c:989-1018 | the rest of the allocation after a surplus page was given back |
| `Kmalloc.Kheap.FindPage` | kern/vm/kmalloc.c:1072-1090 | the page an address lies on; none exactly when it is on no heap page |
| `Kmalloc.Kheap.RemoveLists` | kern/vm/kmalloc.c:822-845 | both lists lose exactly the page |
| `Kmalloc.Kheap.ReleasePage` | kern/vm/kmalloc.c:1141-1148 | the page is off both lists and its pageref free before it is returned; panics exactly when a root before the pageref's own has pagerefs in use but no page |
| `Kmalloc.Kheap.SubpageFree` | kern/vm/kmalloc.c:1024-1160 | frees exactly the live block at the address; refused exactly off the heap pages or off a block boundary; a page is handed back only with no live block on it; panics exactly when the block is the last live one of its page and such a root exists |
| `Kmalloc.Kheap.BigAlloc` | kern/vm/kmalloc.c:1185-1199 | exactly the pages from the address on, as many as computed, become its block's; nothing else changes |
| `Kmalloc.BigRoundTrip` | kern/vm/kmalloc.c:1185-1223 | allocating and freeing a block of whole pages gives back the old uses of all pages |
| `Kmalloc.LiveElsewhere` | kern/vm/kmalloc.c:967-1018 | a page not on the heap's lists holds no live block, so that setting it up disturbs nobody |
| `Kmalloc.FillDeadbeef` | kern/vm/kmalloc.c:44-53 | every word of the block is overwritten, and nothing else |
| `Kmalloc.Kheap.Free` | kern/vm/kmalloc.c:1211-1223 | kfree of null, of a live block, of a big block: exactly that is released, no page of a big block stays its own, and nothing outside a live block is written to; panics under exactly that condition |
| `Kmalloc.LastIsCounted` | kern/vm/kmalloc.c:1141 | nfree reaches the number of blocks with this block exactly when no other block of the page is live |
| `Kmalloc.PanicMeansStuck` | kern/vm/kmalloc.c:313-320 | a panicking kfree takes a root without page all of whose 256 pagerefs are lost or in waiting |
| `Kmalloc.KfreeCanPanic` | kern/vm/kmalloc.c:313-320 | a heap that keeps the whole invariant and a live block in it whose release panics |
| `Kmalloc.Kheap.ClientWrite` | kern/vm/kmalloc.c:873-1160 | a client writing to its live block changes nothing else |
| `Kmalloc.NPagesCover` | kern/vm/kmalloc.c:1190-1191 | the page count covers the request if and only if it is at most 2^32 - 4096 |
| `Kmalloc.NPagesWraps` | kern/vm/kmalloc.c:1190-1191 | the largest request gets a page count of zero |
| `Pid.PidNext` | kern/thread/pid.c:136-150 | the lowest free pid; -1 exactly when all are taken |
| `Pid.ExecKeepsInv` | kern/thread/pid.c:101-249 | no step follows a dangling entry, misses its own or destroys a channel in use; the protocol's invariant is kept |
| `Pid.AllRunsKeepInv` | kern/thread/pid.c:101-249 | the same in every state of every interleaving |
| `Pid.ProcessesDistinct` | kern/thread/pid.c:101-129 | live processes own distinct entries under distinct pids, and an entry has at most one waiter |
| `Pid.NobodyLeftAsleep` | kern/thread/synch.c:283-317 | after the exit broadcast nobody is, or falls, asleep on the entry's channel |
| `Pid.WaitReturnsExitStatus` | kern/thread/pid.c:173-208 | pid_wait returns 0 only after that child's pid_exit, with exactly the status it passed |
| `Pid.ParentIsCreator` | kern/thread/pid.c:115-120 | in every run the parent recorded in an entry is the process that created it |
| `Pid.LookFinds` | kern/thread/pid.c:176-196 | in every run: no such process exactly when the pid is free, not a child exactly when another process created it, and otherwise the caller waits for that entry, or reaps it if its process has exited |
| `Pid.WaitedForChild` | kern/thread/pid.c:173-208 | the process whose status was returned was created by the caller |
| `Pid.ReclaimedOnce` | kern/thread/pid.c:155-167 | an entry once reclaimed is never touched again |
| `Pid.ReapAlone` | kern/thread/pid.c:196-205 | when an entry is reclaimed its process is gone, its channel empty, its spinlock free and nobody else refers to it |
| `Pid.PidTable.PidCreate` | kern/thread/pid.c:101-129 | the lowest free pid gets an entry with the caller as parent, and nothing else changes; when there is none nothing is created |
| `Pid.PidTable.WaitLook` | kern/thread/pid.c:173-194 | pid_wait up to where it waits: each of the four outcomes and its condition; the table is untouched |
| `Pid.PidTable.MarkExited` | kern/thread/pid.c:214-228 | the process's own entry gets the status; nothing else changes |
| `Pid.PidTable.Broadcast` | kern/thread/synch.c:310-317 | exactly the sleepers are woken and the channel is empty |
| `Pid.PidTable.Reclaim` | kern/thread/pid.c:191-208 | the status handed over is the one the child passed to pid_exit; its entry and pid are released, nothing else |
| `Vnode.ExecKeepsInv` | kern/vfs/vnode.c:79-123 | no step touches a destroyed vnode or fails an assertion; counts, table and flags stay consistent |
| `Vnode.AllRunsKeepInv` | kern/vfs/vnode.c:79-123 | the same in every state of every interleaving of lookup, incref, decref and reclaim |
| `Vnode.VnodeSafety` | kern/fs/semfs/semfs_vnops.c:594-646 | vn_refcount is the number of references including the one handed to a reclaim; one reclaim at a time; destroyed only when nobody refers to it; one vnode per semaphore in the table |
| `Vnode.DestroyedOnce` | kern/fs/semfs/semfs_vnops.c:583-589 | a destroyed vnode stays as it is |
| `Vnode.Semfs.VopIncref` | kern/vfs/vnode.c:79-87 | vnode_incref is the machine step |
| `Vnode.Semfs.VopDecref` | kern/vfs/vnode.c:89-123 | reclaim is called exactly for the last reference with none pending |
| `Vnode.Semfs.GetVnode` | kern/fs/semfs/semfs_vnops.c:752-799 | the vnode returned is the table's one for that semaphore, with a reference for the caller |
| `Vnode.Semfs.ReclaimCheck` | kern/fs/semfs/semfs_vnops.c:604-616 | the decision between dropping the passed reference and going on |
| `Vnode.Semfs.ReclaimRemove` | kern/fs/semfs/semfs_vnops.c:618-641 | the vnode leaves the table and its semaphore's flag is cleared |
| `UserSem.RunKeepsInv` | kern/fs/semfs/semfs_vnops.c:187-292 | in every run of reads, wakeups, writes and truncations the count is what was put in less what was taken out |
| `UserSem.StepCovers` | kern/fs/semfs/semfs_vnops.c:141-154 | while somebody sleeps the count is at most what the woken threads want; a step keeps that if and only if it is not a raise, from a positive count, to more than they want |
| `UserSem.CoveredIffNeverSkips` | kern/fs/semfs/semfs_vnops.c:141-154 | a run goes only through such states if and only if semfs_wakeup never skips such a raise |
| `UserSem.LostIffNotCovered` | kern/fs/semfs/semfs_vnops.c:187-223 | when the woken threads have had their turn, in any order, a sleeper is left beside a positive count and nobody woken if and only if the state they started from was not such a one |
| `UserSem.WakeupLost` | kern/fs/semfs/semfs_vnops.c:141-256 | two readers, two writes: whenever the first reader wants one unit, the second stays asleep beside the second write's units |
| `UserSem.Semaphore.Wakeup` | kern/fs/semfs/semfs_vnops.c:141-154 | nobody, the first sleeper or all of them are woken |
| `UserSem.Semaphore.Loop` | kern/fs/semfs/semfs_vnops.c:197-221 | takes what is wanted or all there is; what is left over is waited for |
| `UserSem.Semaphore.Write` | kern/fs/semfs/semfs_vnops.c:229-256 | the count goes up by the number written, or stays when it would overflow |
| `UserSem.Semaphore.Truncate` | kern/fs/semfs/semfs_vnops.c:265-292 | the count becomes the length, refused exactly outside 32 bits |
| `SemLife.ExecKeepsInv` | kern/fs/semfs/semfs_vnops.c:470-646 | for removal and reclaim of one semaphore, access by access: a step fails if and only if reclaim destroys the semaphore while removal has its lock; otherwise it is destroyed when, and only when, it is out of the directory and without vnode |
| `SemLife.RunFailsIff` | kern/fs/semfs/semfs_vnops.c:470-646 | a run fails if and only if that happens in it |
| `SemLife.DestroyedOnce` | kern/fs/semfs/semfs_vnops.c:495-508 | in every other run the semaphore is destroyed once, exactly when it is out of the directory and without vnode |
| `SemLife.BothClearedFails` | kern/fs/semfs/semfs_vnops.c:497-508 | once both flags are cleared before either is tested, every way on leads to the failure |
| `SemLife.FailureNeeds` | kern/fs/semfs/semfs_vnops.c:629-638 | a failure takes that, or a removal that has seen the vnode and not yet dropped the lock |
| `SemLife.BothClear` | kern/fs/semfs/semfs_vnops.c:470-646 | a run that fails |
| `SemLife.InTime` | kern/fs/semfs/semfs_vnops.c:470-646 | a run of the same two operations that does not |
| `SemLife.RefSteps` | kern/fs/semfs/semfs_vnops.c:594-646 | how each step changes the number of references and of clients |
| `FileTable.NoDangling` | kern/syscall/file.c:215-265 | no descriptor refers to an empty slot |
| `FileTable.CloseKeepsInv` | kern/syscall/file.c:215-265 | closing keeps rc, descriptors and vnode references in step; the last close gives the vnode back |
| `FileTable.OpenKeepsInv` | kern/syscall/file.c:24-90 | so does opening |
| `FileTable.DupKeepsInv` | kern/syscall/file_syscalls.c:98-144 | so does dup2, also onto an open descriptor of the same file |
| `FileTable.DupNames` | kern/syscall/file_syscalls.c:98-144 | both descriptors name the same open file, which survives; all others are as before |
| `FileTable.CountedKeepsInv` | kern/syscall/proc_syscalls.c:126-133 | so does each round of the loop in fork |
| `FileTable.ExitRoundSafe` | kern/syscall/file.c:267-280 | each round of file_table_destroy closes its descriptor; a round past the end of the table, whatever it reads there, ends in EBADF or nothing and changes nothing |
| `FileTable.ResetKeepsInv` | kern/syscall/file.c:334-343 | exec's table reset leaves rc equal to the descriptors plus the forgotten ones |
| `FileTable.GoneKeepsInv` | kern/syscall/file.c:267-280 | a process all of whose descriptors are closed leaves no reference |
| `FileTable.Files.NewProcess` | kern/syscall/file.c:334-343 | a process starts with an empty table of its own |
| `FileTable.Files.Open` | kern/syscall/file.c:24-90 | the lowest free descriptor and slot, with that vnode and mode, count 1 and offset 0; EMFILE exactly when one is missing, ENOMEM exactly when only the record is; on failure nothing changes |
| `FileTable.Files.Close` | kern/syscall/file.c:215-265 | EBADF exactly for a descriptor that is not open; otherwise that one is closed and its file loses a reference, the last giving the vnode back; mode and offset of a file still open are kept |
| `FileTable.Files.Dup2` | kern/syscall/file_syscalls.c:98-144 | the error cases; otherwise the descriptor names the other's file, which has gained a reference, and what it named before has lost one |
| `FileTable.Files.ForkCount` | kern/syscall/proc_syscalls.c:127-132 | one round: the child's descriptor comes into force with its reference |
| `FileTable.Files.Fork` | kern/syscall/proc_syscalls.c:119-133 | undisturbed, the child gets a copy of the table and every count goes up by the number of its descriptors in it |
| `FileTable.Files.ExecReset` | kern/syscall/file.c:334-343 | the reset is the state change, what is forgotten being recorded |
| `FileTable.Files.Exit` | kern/syscall/file.c:267-280 | the loop up to PID_MAX, with anything at all behind the table: every descriptor of the process is closed, no other process's table changes, nothing is forgotten |
| `FileTable.Files.Transfer` | kern/syscall/file.c:98-208 | read and write: EBADF exactly for a closed descriptor or the wrong access mode; otherwise the offset advances by what was moved, or the vnode's error is passed on |
| `FileTable.Files.Lseek` | kern/syscall/file_syscalls.c:160-231 | the new offset by whence; exactly when each error is returned; every refusal leaves the file alone |
| `FileRuns.ExecKeepsInv` | kern/syscall/proc_syscalls.c:119-149 | no step of any process, other processes coming between the rounds of fork and exit, goes through an empty slot; only exec forgets descriptors, namely those the process had |
| `FileRuns.ForkRunKeepsInv` | kern/syscall/proc_syscalls.c:119-149 | when the child is let go its table is its parent's, whatever happened between the rounds |
| `FileRuns.CountsOverRuns` | kern/syscall/file.c:24-373 | after every sequence of open, close, dup2, read, write, lseek, fork, exec and exit, rc is the number of descriptors plus the number exec forgot over the run, and a slot is filled exactly when that is not 0 |
| `FileRuns.ExactIffCleanExecs` | kern/syscall/file.c:334-343 | a run ends with every rc equal to the number of descriptors if and only if every exec in it was called with all descriptors closed |
| `FileRuns.ExactWithoutExec` | kern/syscall/file.c:24-280 | so every run without exec does |
| `FileRuns.ForgottenForEver` | kern/syscall/file.c:334-343 | a file once forgotten by exec is open, with rc above the number of descriptors, after every continuation of the run |
| `FileRuns.AllClosedAtTheEnd` | kern/syscall/file.c:267-280 | when every process has exited, all files are closed and all vnode references given back if and only if no exec forgot any |
| `FileRuns.ExecForgets` | kern/syscall/file.c:334-343 | a run of one open and one exec after which rc is 1 and there is no descriptor |
| `Bitmap.Map.constructor` | kern/lib/bitmap.c:56-90 | all bits clear but the padding |
| `Bitmap.Map.Alloc` | kern/lib/bitmap.c:98-121 | marks and returns the lowest clear bit; fails exactly when there is none |
| `Bitmap.Map.Mark` | kern/lib/bitmap.c:134-145 | exactly that bit is set |
| `Bitmap.Map.Unmark` | kern/lib/bitmap.c:147-158 | exactly that bit is cleared |
| `Bitmap.Map.IsSet` | kern/lib/bitmap.c:160-169 | tells whether the bit is set |
| `Bitmap.FindClear` | kern/lib/bitmap.c:98-121 | the search, whole bytes first |
| `Bitmap.AllBits` | kern/lib/bitmap.c:106-117 | a byte is not all ones exactly when some bit is clear |
| `Bitmap.MaskIs` | kern/lib/bitmap.c:124-132 | bit 0 is the lowest of its byte, and so on |
| `Sfs.StoreKeeps` | kern/fs/sfs/sfs_bmap.c:48-198 | storing a free block at one place keeps: marked blocks are metadata plus reachable ones, none reachable twice |
| `Sfs.ClearKeeps` | kern/fs/sfs/sfs_bmap.c:203-302 | clearing places and freeing their blocks keeps the same |
| `Sfs.MappedIsUsed` | kern/fs/sfs/sfs_bmap.c:98-101 | a mapped block is marked, so the consistency panic cannot happen |
| `Sfs.DataWriteKeepsMaps` | kern/fs/sfs/sfs_bmap.c:48-198 | writing file data changes no file's map |
| `Sfs.Volume.BAlloc` | kern/fs/sfs/sfs_balloc.c:57-79 | a free block, marked and cleared; none exactly when the disk is full |
| `Sfs.Volume.BFree` | kern/fs/sfs/sfs_balloc.c:84-89 | exactly that block is unmarked |
| `Sfs.Volume.BMap` | kern/fs/sfs/sfs_bmap.c:48-198 | refines a finite map: stable on re-lookup, every other entry of every file untouched, the contents of every mapped and metadata block untouched, the block handed out free before and cleared, EFBIG and ENOSPC without damage |
| `Sfs.Volume.Truncate` | kern/fs/sfs/sfs_bmap.c:203-302 | exactly the blocks not kept are freed and unmapped; the contents of the others, other files and metadata are untouched; the indirect block goes exactly when it is looked at and none of its entries stays; the size is the low 32 bits of the length |
| `Sfs.Volume.FreeEntries` | kern/fs/sfs/sfs_bmap.c:262-275 | the loop over the indirect block frees each of its blocks once |
| `Sfs.TruncKeepsBelow` | kern/fs/sfs/sfs_bmap.c:217-218 | no block below the new length in bytes is lost if and only if the length in blocks is below 2^32 or the file has no block beyond its low 32 bits |
| `Sfs.TruncLosesBelow` | kern/fs/sfs/sfs_bmap.c:217-218 | a consistent volume on which truncation to 2 TiB frees block 0 |
| `Sfs.TruncComplete` | kern/fs/sfs/sfs_bmap.c:234-275 | everything at or past the new length in bytes is freed if and only if no block of the indirect range stands right at it |
| `Sfs.TruncIncomplete` | kern/fs/sfs/sfs_bmap.c:266 | a consistent volume and a truncation that keeps such a block |
| `Sfs.MapIs` | kern/fs/sfs/sfs_bmap.c:75-171 | the map is the direct blocks followed by the entries of the indirect block |
| `Sfs.IndirectFreed` | kern/fs/sfs/sfs_bmap.c:252-291 | below the largest length the indirect block stays if and only if one of its entries does |
| `Sfs.TruncToNothing` | kern/fs/sfs/sfs_bmap.c:203-302 | truncation to 0 leaves the file no block, direct or indirect |
| `Numerals.NumeralValue` | common/libc/printf/__printf.c:365-491 | the digits printed evaluate back to the number |
| `Numerals.GlyphIs` | common/libc/printf/__printf.c:415-440 | the digits are 0 to 9 and a to f |
| `Numerals.NumeralFits` | common/libc/printf/__printf.c:76-84 | a 64-bit number has at most 22 digits in base 8, 10 or 16 |
| `Numerals.NumeralLeading` | common/libc/printf/__printf.c:435-459 | no leading zeros |
| `Format.SpecExtend` | common/libc/printf/__printf.c:172-233 | reading modifiers one by one comes to what the modifiers mean taken together |
| `Format.Field` | common/libc/printf/__printf.c:359-404 | a field is as wide as asked for or as its text |
| `Printf.Digits` | common/libc/printf/__printf.c:420-467 | the conversion loop never leaves the 23-byte buffer and leaves the numeral and a NUL at its end |
| `Printf.Pf.Print` | common/libc/printf/__printf.c:138-150 | the text is sent and counted |
| `Printf.Pf.Fill` | common/libc/printf/__printf.c:345-357 | that many fill characters are sent |
| `Printf.Pf.PrintStuff` | common/libc/printf/__printf.c:359-404 | the field is sent: blanks before the prefixes, zeros after them |
| `Printf.Pf.Modifier` | common/libc/printf/__printf.c:171-233 | one modifier's effect |
| `Printf.Pf.GetNum` | common/libc/printf/__printf.c:235-311 | the argument by its type, as magnitude and sign |
| `Printf.Pf.SetBase` | common/libc/printf/__printf.c:313-343 | the base and whether a prefix is due |
| `Printf.Pf.PrintNum` | common/libc/printf/__printf.c:406-491 | sign, base prefix and numeral as one field |
| `Printf.Pf.SendChar` | common/libc/printf/__printf.c:493-563 | one format character's effect on the state |
| `Printf.Pf.Vprintf` | common/libc/printf/__printf.c:565-592 | the characters sent are those of the format read directive by directive; their number is returned |
| `Printf.Snp.Send` | common/libc/printf/snprintf.c:73-93 | the buffer holds as much of what was sent as fits and is untouched beyond |
| `Printf.Vsnprintf` | common/libc/printf/snprintf.c:95-142 | the first min(total, len - 1) characters and a NUL, the rest of the buffer untouched, the total returned, as in section 7.19.6.5 of ISO C99; nothing is stored when len is 0 |
| `Directives.PlainText` | common/libc/printf/__printf.c:498-563 | text without % prints as it is, before what the rest prints |
| `Directives.DirectiveThenRest` | common/libc/printf/__printf.c:498-563 | a directive prints its field, takes its argument if it has one, and leaves the others to the rest of the format |
| `Directives.UnfinishedDirective` | common/libc/printf/__printf.c:565-592 | a format that ends inside a directive prints nothing for it |
| `Directives.UnsignedValue` | common/libc/printf/__printf.c:242-346 | for every n: %u, %x and %o print, in base 10, 16 and 8 and without superfluous zeros, n modulo 2^32, and with ll modulo 2^64 |
| `Directives.SignedValue` | common/libc/printf/__printf.c:242-346 | for every n: %d prints n as an int, with ll as a long long, a minus exactly when negative |
| `Directives.PointerValue` | common/libc/printf/__printf.c:242-346 | for every n: %p prints 0x and n modulo 2^32 in base 16 |
| `Directives.PrefixedValue` | common/libc/printf/__printf.c:441-470 | for every n: %#x has 0x before the number and %#o has 0 |
| `Directives.PaddedNumber` | common/libc/printf/__printf.c:367-404 | for every n and width: blanks before, with a minus blanks after, with a zero zeros between sign and digits, up to the width |
| `Directives.Strings` | common/libc/printf/__printf.c:498-563 | %s prints the string up to its NUL or (null), padded on the side asked for |
| `Directives.Characters` | common/libc/printf/__printf.c:498-563 | %c prints the character of that code |
| `Directives.OtherCharacters` | common/libc/printf/__printf.c:498-563 | any other character after % prints itself |
| `Atoi.Atoi` | common/libc/stdlib/atoi.c:49-101 | the number the string starts with, modulo 2^32 |
| `Atoi.Accumulate` | common/libc/stdlib/atoi.c:70-92 | the digit loop with wrap-around |
| `RoundTrip.ParsedNumber` | common/libc/stdlib/atoi.c:49-101 | after any blanks and tabs, no sign or either sign, the digits up to the first other character are read in base 10 |
| `RoundTrip.ParsedNothing` | common/libc/stdlib/atoi.c:49-101 | no digits read as 0 |
| `RoundTrip.ParsedText` | common/libc/printf/__printf.c:359-404 | a printed field reads as its number, or as that number times a power of ten when zeros are padded on the right |
| `RoundTrip.ParsedOfPrinted` | common/libc/printf/__printf.c:406-491 | under any modifiers, what %d prints parses as the number printed if and only if it is 0 or no zeros are padded on the right |
| `RoundTrip.ZerosChange` | common/libc/stdlib/atoi.c:70-92 | such zeros change every int but 0 even modulo 2^32 |
| `RoundTrip.PrintThenParse` | common/libc/stdlib/atoi.c:49-101 | the same through snprintf's buffer, up to its NUL, and atoi |
| `RoundTrip.DecimalRoundTrip` | common/libc/stdlib/atoi.c:49-101 | plain %d into any buffer of at least 12 characters followed by atoi is the identity on every int |
| `RoundTrip.ZerosOnTheRight` | common/libc/printf/__printf.c:359-404 | "%-05d" prints 5 as "50000" |

## Left out

- Drivers, LAMEbus, emufs, console, menu, boot and shutdown, panic, address spaces, program loading, `copyin` and `copyout`: plumbing, or machine code; a context switch is a primitive event.
- Scheduler.Exec: sleeping and waking are events of whole critical sections; the lists are sequences, the linked form being the subject of `ThreadList`. Inter-processor interrupts are not modelled.
- Interrupts.Exec: the time before the first CPU structure exists, when the spl functions do nothing, is not modelled. The idle loop's interrupts may come whenever a CPU is at high level and holds no spinlock, which is more often than in the code.
- Migration.RunQueues.ConsiderMigration: runs without interference and sets no `t_cpu`; with interference the claims are those of `Scheduler.MigrationConserves`, `Scheduler.MigPushKeepsInv` and `Scheduler.MigGrabKeepsInv`.
- Locks.Exec, Semaphores.Exec: a thread that is woken may wait for ever for the spinlock; nothing is claimed about fairness or progress in time.
- Pid.Exec: one waiter for each pid, that is one thread in each process and one in the kernel process, since `pid_wait` looks at the flag once. The table starts out empty, although the loop that empties it stops one slot short of the last pid. The process that gets pid -1 when the table is full is not created.
- Vnode.Exec: no semaphore is removed there, so reclaim never destroys one; removal against reclaim is the subject of `SemLife`, for one semaphore. Out-of-memory paths of the lookup are left out.
- Vnode.Semfs.ReclaimRemove: does not destroy an unlinked semaphore, for the same reason.
- UserSem.Exec: waiting on the condition variable and letting go of the lock is one step; the hand-off inside is modelled in `Pid`. Nothing is claimed about fairness.
- SemLife.Exec: readers and writers, which hold a reference to the vnode, are left out.
- FileTable.Files.ExecReset: the three opens that follow are ordinary opens; one that fails and gives up the new table is left out, as are the out-of-memory paths of fork and table set-up.
- FileRuns.Exec: a child's descriptors come into being one by one as fork counts them; the copy made before is seen by nobody until the child runs. dup2 is one step, its last assignment being to the process's own table.
- FileTable.Files.Lseek: offsets are unbounded integers; a 64-bit overflow of the sum is not modelled.
- FileTable.Files.Transfer: how many bytes the vnode moved, and whether it failed, is a parameter.
- Kmalloc.Kheap: memory is a map of words at block addresses; the pageref structures and bitmap words are maps and bits rather than bytes in their pages, and a pageref is named by its number. `alloc_kpages` is a parameter: a page in no other use, or 0. Guard bands, labels and the slow checks are compiled out in the source. Freeing a block twice is the caller's error.
- Sfs.Volume.BMap, Sfs.Volume.Truncate: disk reads and writes succeed; the failed write-back paths are left out. The length is not negative.
- Bitmap.Map.constructor: allocation succeeds.
- Printf.Pf.Vprintf: the character count and the field width do not overflow an int; arguments of the wrong type or missing print as 0 or "(null)".
- Bitwise operations, 64-bit compare, add and subtract, time arithmetic and string functions: they would only add easy members.
