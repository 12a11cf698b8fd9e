# Verified model of the lima driver

A Dafny model of the FreeBSD port of lima, the kernel driver of the Mali-400/450 GPU. It covers the
GPU address space, the job pipeline that relies on it, the growable tile heap, the shmem GEM object,
interrupt handling, and device bring-up. `dafny verify dfyconfig.toml` checks all of it.

The central question is whether the GPU ever sees memory it should not. A job names buffers; the
driver maps them in page tables, counts their users, switches the MMU and flushes its TLB, grows a
heap while a job is stalled, and tears everything down while other clients open and close handles.

- `geometry`, `vmspec`, `limavm`: the page tables. `LimaVm` writes the directory and the 128 backing
  tables in place; `VmSpec` is the abstract map it implements. The hardware walk over bus memory is
  proved to read the driver's words.
- `claims`, `jobsystem`, `jobsafety`, `pipesafety`, `jobruns`, `devicetheorems`: the whole device as a
  state machine of 33 kinds of step, in every interleaving. A step is one critical section of the
  source, or one store where the source holds no lock: a heap growth alone is a sequence of five or so
  steps, of ten kinds. `Enabled` says what the environment promises, `Defined` that everything the step
  follows a pointer to exists, and `Avoids` lists the cases in which the source follows a pointer that
  may be gone. After any run, the next step is `Defined` if and only if it `Avoids` those cases.
- `ownpages`, `staletlb`: what the MMUs of a job in flight can answer, cached or walked, for the job's
  own buffers, and what they can have cached at all.
- `pipetheorems`, `recoverytheorems`, `reftheorems`: what the steps of a run have made of fences, error
  flags and PM counts, of the recovery work and the sizes of heaps, and of every reference counter. Each
  is told by the steps themselves, as an if and only if or an equation.
- `growthraces`: what an unlocked growth does to the clients the heap is shared with, with the exact
  condition under which page tables stay exact. `examplerun`: runs that reach a job on the hardware,
  and each of the exceptions.
- `schedpipe`: the scheduler callbacks of one pipe in place, and its bounded teardown.
- `gemsubmit`: submission with its unwinding.
- `heapsize`, `heapbo`, `gptask`: heap growth over any sequence of calls, and the windows the GP is given
  over any number of recoveries.
- `shmemspec`, `shmem`: the use count of a GEM object, its wirings, and the purge.
- `pppipe`, `gpcore`, `mmu`: interrupt handlers, reset handshakes and register sequences.
- `platformirq`, `device`: the interrupt bridge, staged bring-up, suspend and resume.

## What the proofs found

These are properties one would expect of the code that it has only under a condition. Each is stated
with the condition, and with an input or a run that breaks it.

- `lima_heap_alloc` replaces the sg table and stores the new size without a lock. A client that opens the
  heap in between installs pages which its last deletion, going by the old size, does not unmap
  (`ExampleRun.EntryLeftBehind`, `LimaVm.EarlyOpenScenario`). All page tables are exact up to some state
  if and only if no step before it was the last deletion of a range with an installed page past the
  stored size (`GrowthRaces.ExactIff`), and a deletion is one of those if and only if its range has the
  first page of a growth whose size has not been stored (`GrowthRaces.ForgetsIff`). It never happens in
  a run in which nobody opens a heap between the two stores, or before the new table of a failed growth
  is freed, and no task is freed while its heap grows (`GrowthRaces.CalmRuns`).
- Such an entry can end up inside the range of another heap of that client, and the GPU then reads through
  it memory that is not the heap's (`ExampleRun.StaleTranslation`). As long as a job is on the hardware,
  every answer its MMUs can give for a page of one of its buffers is the page installed there, if and only
  if no such entry was at the page when the job was started (`OwnPages.OwnPagesIff`). Pages of buffers that
  are not heaps, and pages installed by then, never have one (`OwnPages.OnlyOwnPages`).
- `lima_vm_bo_del` flushes no TLB. A job's own buffers are safe, as the job keeps their ranges. But what else
  its MMUs have cached since they were switched or flushed stays with a live range if and only if no range
  with a page cached is deleted for the last time, and no table walk meets an entry left behind
  (`StaleTlb.CachedIff`); the page of a freed buffer can stay in reach (`ExampleRun.CachedAfterClose`).
- A growth that fails once the old sg table is dropped leaves the heap without one, and the next client to
  open it follows a NULL pointer (`ExampleRun.TableLeftAbsent`, `HeapBo.OpenAfterFailure`).
  `lima_vm_bo_add` goes wrong if and only if it creates a range and there is no table
  (`LimaVm.LimaVm.BoAdd`); every buffer has a table as long as no growth fails there
  (`GrowthRaces.TablesUnlessFailed`).
- A heap shared by two address spaces is mapped only where it grows. All its populated pages are mapped
  in an address space, as the heap's own, if and only if it has not grown past that address space since
  its range was created (`DeviceTheorems.AllPagesMappedIff`); a job in flight can lack one
  (`ExampleRun.SharedHeapExample`). Deleting the last use there can run into a backing table that was
  never allocated (`LimaVm.LimaVm.BoDel`, `LimaVm.SharedHeapScenario`,
  `ExampleRun.DeletionMeetsNoTable`).
- Every call of `lima_heap_alloc` that fails after it has read pages leaves them wired, and a retry wires
  them again. After the release all wires are gone if and only if no call that failed after reading a page
  was followed by one that read it again (`HeapBo.Heap.ReleasePages`, `HeapBo.RetryWiresTwice`).
- `lima_vm_bo_add` reads the sg table under the buffer's lock, which a growth does not take to free the
  table: a client can be in the middle of it (`ExampleRun.TableFreedWhileRead`).
- The recovery work is never cancelled: after a timeout it finds no current task
  (`ExampleRun.RecoveryWithoutTask`), and while it runs its task and even its heap can be freed
  (`ExampleRun.TaskFreedUnderRecovery`, `ExampleRun.HeapFreedUnderRecovery`). It is safe to start if and
  only if the current task is one with a heap (`DeviceTheorems.NoStepDangles`); while that task is not
  being freed, only freeing a table that is being read can go wrong (`DeviceTheorems.RecoveryIsSafe`).
- A finished job's task that has been freed is still named by its pipe, and the teardown reads its fence
  (`ExampleRun.TeardownOfFreedTask`).
- The teardown forces the pipe idle before it stops the scheduler. The pipe ends with a task recorded if
  and only if a job is started in between and does not time out there (`SchedPipe.LimaPipe.PipeFini`). A
  forced teardown keeps its PM reference (`DeviceTheorems.PipesInEveryState`).
- The unmap loop has a u32 variable. It ends if and only if the range stops short of 4 GiB. The
  Mali-400 limit admits the last page, and releasing a buffer that holds it never returns
  (`Geometry.RangeUnmapEnds`).
- The windows given to the GP tile the populated heap if and only if it ends below 4 GiB; the window
  that ends at 4 GiB is empty, as the u32 wraps (`GpTask.Task.RunTask`, `GpTask.FirstWindow`).
- When `drm_sched_job_init` fails, and only then, a submission leaves one GEM reference per buffer
  behind (`GemSubmit.DrmFile.Submit`).
- A PP core is started with its interrupts masked if and only if it was reset softly since it was last
  armed and that reset does not complete in time, unless the job before failed and its hard reset was
  not answered (`PpPipe.ArmedIff`).
- After an MMU bus error without an active page fault the MMU's interrupts stay masked
  (`LimaMmu.Mmu.InterruptAndRecover`).
- The comment at the contiguous-run path of `drm_gem_shmem_freebsd_get_pages` that the loop below still
  fetches every page describes an earlier version: the run is returned as it is. The model follows the
  code (`Shmem.ShmemObject.FetchPages`).

## What the environment promises

- `drm_mm` hands out free page-aligned ranges inside the managed space; `dma_alloc_coherent` hands out
  zeroed, page-aligned blocks that overlap no other. The directory page lies below 4 GiB because of the
  32-bit coherent mask set in `lima_device.c:777`.
- The DMA address of a page does not change while the page is held.
- The scheduler keeps at most one job on a pipe, calls `timedout_job` only for the job in flight and
  `free_job` only for a job that is not. A file is closed after its handles and submissions.
- The GPU raises a job's interrupts only while the job is in flight. When it runs out of heap is free, and
  so is when the recovery work, once scheduled, gets to run.
- The memory of an address space or buffer that the recovery still names is not handed out again as a new
  one before the recovery ends.
- Outside calls are parameters: an address they return, or the error.

## Model

| member | source | states |
|---|---|---|
| `Geometry.SameSlot` | lima_vm.c:29-40 | for every 32-bit address the hardware pair (directory entry, table entry) and the driver pair (backing table, entry) name the same page slot |
| `Geometry.IndexBits` | lima_vm.c:29-40 | the shift-and-mask macros are the quotients and remainders the model uses, and the two index pairs agree bit for bit |
| `Geometry.FlagsAreAdded` | lima_vm.c:149 | or-ing the mapping flags into a page-aligned address loses and changes no address bit |
| `Geometry.FlagsMaskOff` | lima_vm.c:149 | masking the low twelve bits of a leaf entry gives the page address back |
| `Geometry.EntryDecodes` | lima_vm.c:142-146 | a directory entry is marked present and decodes to its own page table, with every address bit |
| `Geometry.LeafDecodes` | lima_vm.c:149 | a leaf entry is marked present and decodes to its own page |
| `Geometry.UnmapLoopEnds` | lima_vm.c:74-84 | the u32 loop of the unmap ends if and only if its end lies below the last page of 4 GiB |
| `Geometry.RangeUnmapEnds` | lima_device.c:800-812 | unmapping a whole range ends if and only if the range stops short of 4 GiB: always with the Mali-450 limit, not with the Mali-400 one |
| `VmSpec.InsertOk` | lima_vm.c:199-216 | adding a range keeps the table exact and changes no existing translation |
| `VmSpec.ExtendOk` | lima_vm.c:383-391 | growing a range keeps the table exact and changes no existing translation |
| `VmSpec.DropOk` | lima_vm.c:241-257 | dropping a user keeps the table exact if and only if it is not the last one, or every installed page of the range is among those the deletion unmaps |
| `VmSpec.LeftBehind` | lima_vm.c:249-253 | an installed page past the unmapped part of a released range stays mapped, and no range explains it |
| `VmSpec.InsertThenDrop` | lima_vm.c:169-262 | deleting a range just added gives the whole address space back if and only if every page it installed is unmapped |
| `VmSpec.TableExactInEveryRun` | lima_vm.c:169-262 | over any run of additions, references, deletions that unmap any part, and growths: a page is mapped only if it is the reserved page or an installed page of a live range, in every state up to the k-th, if and only if no deletion before it was the last of a range with an installed page it did not unmap |
| `VmSpec.SoundInEveryRun` | lima_vm.c:169-262 | in every state of every such run, whatever deletions left behind, the reserved page and every installed page of a live range are mapped as they should be, and live ranges are disjoint |
| `LimaVm.LimaVm.MapPage` | lima_vm.c:86-152 | success exactly if the page is below 4 GiB and its backing table exists or can be had below 4 GiB; one translation changes or none; the tables stay well formed |
| `LimaVm.LimaVm.AddTable` | lima_vm.c:99-147 | a new backing table changes no translation and its eight directory words name its pages |
| `LimaVm.LimaVm.UnmapRange` | lima_vm.c:74-84 | terminates and zeroes exactly the words of the pages from start to end; it meets an absent backing table exactly if some page of the range is not backed |
| `LimaVm.LimaVm.MapRange` | lima_vm.c:205-225 | maps every page, or unmaps those before the one that cannot be mapped, although new backing tables remain; succeeds exactly if each page can be mapped |
| `LimaVm.LimaVm.Create` | lima_vm.c:279-314 | an empty address space whose only translation is the Mali-450 DLBU page, at its reserved address, if one is given, and nothing otherwise; or NULL exactly when an allocation fails or does not fit |
| `LimaVm.LimaVm.BoAdd` | lima_vm.c:169-232 | counts one more user and maps nothing, or adds a range with one user that shows every page the sg table lists, in order, and changes no translation outside, or fails and leaves an exact address space as it was; each error case; it goes wrong exactly if it creates a range and there is no sg table |
| `LimaVm.LimaVm.BoDel` | lima_vm.c:234-262 | one user less and nothing unmapped while others are left; with the last the range goes, no translation outside it changes, and with a heap_size of zero none of its pages stays mapped and an exact table stays exact, otherwise exactly the first heap_size bytes are unmapped; it goes wrong exactly if a slot of the unmapped part never got a table; the table stays exact exactly if no installed page lies past the unmapped part |
| `LimaVm.LimaVm.BackedWhenCovered` | lima_vm.c:249-251 | a range whose unmapped part was installed page by page can always be deleted |
| `LimaVm.SharedHeapScenario` | lima_vm.c:249-251 | a heap grown through another address space and closed here makes the deletion meet an absent table |
| `LimaVm.EarlyOpenScenario` | lima_vm.c:249-251 | a heap opened while its table lists eight pages and its size says four, and closed again, leaves four pages mapped without a range |
| `LimaVm.LimaVm.MapBo` | lima_vm.c:366-405 | maps the given pages in order from the offset on, also where they are installed already, and no other, or fails and leaves an exact address space unchanged; succeeds exactly if each page can be mapped; ENOENT without a range |
| `LimaVm.LimaVm.WalkReadsDriverWord` | lima_vm.c:29-40 | the hardware two-level walk reads the same word as the driver index for every 32-bit address, and finds no present directory entry exactly where the table is absent |
| `LimaVm.LimaVm.HardwareFollowsTable` | lima_vm.c:142-149 | so the hardware translates every address by the abstract table, with every address bit intact |
| `LimaVm.LimaVm.ProbePte` | lima_vm.c:61-72 | reports a table absent exactly when the walk meets a non-present directory entry, and otherwise the word the walk reads |
| `JobSafety.FreedIsUnmapped` | lima_gem.c:202-210 | a buffer with a range anywhere has a reference, so it is never freed while mapped |
| `JobSafety.ReleasedIsEmpty` | lima_vm.c:316-321 | an address space nobody names has no range left when it is released |
| `JobSafety.DropKeeps` | lima_gem.c:222-230 | closing a handle or unwinding a submission finds its range and buffer alive and keeps all three kinds of counters exact |
| `JobSafety.PutVmKeeps` | lima_vm.h:184-188 | putting an address space, the last time included, keeps all counters exact |
| `JobSafety.GrowthKeeps` | lima_gem.c:98-153 | each step of a growth, failed ones included, keeps the installed pages of every range the buffer's own and backed, every table stage in order, and all counters exact |
| `JobSafety.GrownFits` | lima_gem.c:143 | storing the new size leaves exactly those address spaces incomplete that do not have the new pages installed |
| `PipeSafety.DropSpares` | lima_vm.c:234-262 | another holder's deletion leaves a queued job all its ranges, and in every range left in the job's address space every installed page with its translation, whatever earlier deletions have left there; it makes no new entry anywhere |
| `PipeSafety.GrowSpares` | lima_sched.c:822-840 | no step of a growth, failed ones included, takes or changes an installed translation of any range in a running job's address space, although the TLB was flushed before the pages were mapped; nor does it leave an entry that is not installed |
| `PipeSafety.StartedKeeps` | lima_sched.c:477-525 | starting a job gives it a fence newer than all signalled ones and MMUs that see only its address space |
| `PipeSafety.DoneKeeps` | lima_sched.c:1105-1121 | completion signals the fence in creation order and returns the one PM reference |
| `PipeSafety.StoppedKeeps` | lima_sched.c:1028-1073 | forced or clean teardown keeps the pipe invariant; a forced one leaves its PM reference counted |
| `JobRuns.StepSafe` | lima_sched.c:464-525 | each of the 33 kinds of step, growths included step by step, follows only live pointers exactly outside the listed cases, keeps the invariant of the whole device, and spares the ranges of the jobs on the hardware |
| `DeviceTheorems.NoStepDangles` | lima_sched.c:723-1121 | after every run, whatever step comes next: every address space, range, buffer, task, backing table and sg table it follows a pointer to exists, no sg table goes while it is read, and a PM reference it drops is held, if and only if it is not one of the cases `Avoids` lists; during a recovery that is when somebody still holds a reference on its heap and, for the mapping, on its address space |
| `DeviceTheorems.OnlyHeapsGoWrong` | lima_vm.c:205-251 | a range with all populated pages of its buffer installed can be deleted unless it ends at 4 GiB; a buffer without a usable sg table is a heap of which a growth has failed or is at work |
| `DeviceTheorems.RecoveryIsSafe` | lima_gp.c:299-325 | as long as its task is not being freed, every step of a recovery finds its heap, address space and task, and goes wrong if and only if it frees an sg table that is being read |
| `OwnPages.OnlyOwnPages` | lima_mmu.c:403-420 | a job is put on the hardware at one state and is there at a later one: each answer its MMUs can give then, cached or walked, for a page in the range of one of its buffers is that buffer's own page, installed there, if the buffer is not a heap or the table had no leftover entry at the page at the start |
| `OwnPages.PlainBuffersAreSafe` | lima_mmu.c:403-420 | in every reachable state with a job in flight, each answer its MMUs can give for a page of one of its buffers that is not a heap is the buffer's own page, whatever earlier deletions have left behind |
| `OwnPages.OwnPagesIff` | lima_mmu.c:403-420 | all answers for the page are the installed one as long as the job is on the hardware if and only if there was no leftover entry at the page at the start |
| `OwnPages.CleanHasNoLeftover` | lima_vm.c:249-253 | an address space in which no deletion has left pages behind has no leftover entry |
| `StaleTlb.CachedIff` | lima_vm.c:234-262 | from a switch or flush on, as long as the pipe is busy, every cached entry is one a live range of the address space or the reserved page has, if and only if no step is the last deletion of a range with a page cached, or a table walk that meets a leftover entry |
| `StaleTlb.NamedIsLive` | lima_vm.c:149 | such an entry is the reserved page's, or of a page of a buffer that exists |
| `StaleTlb.FlushIsFresh` | lima_sched.c:822-840 | the flush at the start of the recovery work leaves nothing cached |
| `DeviceTheorems.AllPagesMappedIff` | lima_gem.c:371-394 | every populated page of a buffer is installed in its range and mapped to the buffer's own page if and only if the buffer has not grown past that address space since the range was created; always for a buffer that is not a heap |
| `DeviceTheorems.GrowthElsewhereIsMissed` | lima_gem.c:137-143 | when the size is stored, every address space whose range lacks the first new page has a page that is populated and not mapped |
| `DeviceTheorems.TablesNameLiveBuffers` | lima_vm.c:149 | every entry of a live address space in which no deletion has left pages behind names the reserved page or a page of a buffer that still exists |
| `DeviceTheorems.CountersAreExact` | lima_vm.c:177-188 | in every reachable state the range, buffer and address-space counters equal the claims of handles, submissions, jobs, files, user mappings and pipes |
| `DeviceTheorems.MappedIsAlive` | lima_gem.c:202-210 | a mapped buffer is alive in every reachable state, with at least as many references as its range has users |
| `DeviceTheorems.PipesInEveryState` | lima_sched.c:723-760 | a pipe names a task exactly when it names an address space; fences are signalled in creation order; the PM count is one per busy pipe plus one per forced teardown |
| `DeviceTheorems.SeqnoOrder` | lima_sched.c:219-232 | of two signalled fences fewer than 2^32 apart the later has the larger u32 seqno if and only if no wrap lies between them |
| `PipeTheorems.FenceIff` | lima_sched.c:464-525 | in every state of every run a job has a fence exactly if it has been started; the fence is signalled exactly if since its latest start the job has completed or a teardown has failed it, and carries an error exactly if such a teardown found it pending or had fake_wedge on |
| `PipeTheorems.CompletionIsClean` | lima_sched.c:1105-1121 | completion signals the pending fence of the job, without an error, and touches no other fence |
| `PipeTheorems.LogIsExact` | lima_sched.c:1105-1121 | the signals of a pipe are exactly those of its completions and forced teardowns, in that order |
| `PipeTheorems.SeqnoIsCounted` | lima_sched.c:464-525 | the number a pipe has reached is the one it began with plus one for each job started, or given up after its fence was made |
| `PipeTheorems.StartIsNumbered` | lima_sched.c:464-525 | and a started job's fence, of its own pipe, has the next number |
| `PipeTheorems.ErrorFlagIff` | lima_sched.c:464-525 | pipe->error is set exactly if it was from the start, or an interrupt or a forced teardown has set it, and no start of a job and no interrupt of the GP without an error has cleared it since |
| `PipeTheorems.CompletesOnlyCleared` | lima_sched.c:1105-1121 | a job completes only if every error raised on its pipe before has been cleared |
| `PipeTheorems.PowerIsBalanced` | lima_sched.c:464-1121 | the PM count is the jobs started less the completions and timeouts, and a forced teardown leaves one behind each time |
| `PipeTheorems.ParkedForGood` | lima_sched.c:1075-1084 | once the scheduler of a pipe is stopped no job is ever started on it again |
| `RecoveryTheorems.WorkIff` | lima_sched.c:822-840 | the recovery is scheduled exactly if an interrupt asked for it since it last ran; it is growing a heap exactly if a run of it found a page left in the heap of the current task and has not failed or ended since, and until then works for that task, address space and heap |
| `RecoveryTheorems.SizeIsCounted` | lima_gem.c:38-143 | as long as a buffer exists, through any steps of any clients, it keeps its pages, and its populated size is the one it had times two to the number of sizes stored by recoveries of it, up to the whole buffer |
| `RefTheorems.CountersFollowSteps` | lima_vm.c:177-262 | every step of every run changes every range, buffer and address-space counter by exactly the references it takes less those it gives back |
| `RefTheorems.ReferencesAreConserved` | lima_vm.c:177-262 | so in every state each counter is the references taken so far less those given back |
| `RefTheorems.LeakIsForGood` | lima_gem.c:355-458 | the buffers of a submission whose drm_sched_job_init failed are never freed, whatever is closed and unwound after it |
| `GrowthRaces.ExactIff` | lima_gem.c:120-143 | all page tables are exact in every state up to the k-th if and only if none of the k steps was the last deletion of a range with an installed page past the stored heap size |
| `GrowthRaces.ForgottenPage` | lima_vm.c:249-253 | such a deletion leaves an entry to a page of the buffer that no range owns |
| `GrowthRaces.ForgetsIff` | lima_vm.c:241-251 | a deletion is one of those if and only if it is the last of a range that has the first page of a growth whose size has not been stored |
| `GrowthRaces.EarlyIsAhead` | lima_gem.c:135-143 | opening a heap between the store of its new table and the store of its new size, or the freeing of the table if the growth fails, creates such a range |
| `GrowthRaces.CalmRuns` | lima_gem.c:135-143 | in a run without such an open, and without a task freed while its heap grows, every page table is exact in every state |
| `GrowthRaces.TablesUnlessFailed` | lima_gem.c:146-151 | as long as no growth fails after dropping the table, every buffer has one and can be opened in any address space |
| `ExampleRun.JobGetsToRun` | lima_sched.c:464-525 | a run of seven steps puts a job on the hardware |
| `ExampleRun.EntryLeftBehind` | lima_gem.c:135-143 | a run in which a client opens and closes a heap in the middle of its growth and keeps an entry to its second page |
| `ExampleRun.StaleTranslation` | lima_vm.c:249-251 | that run goes on to a job of the same client in flight, with another heap over the entry: for a page of it the MMU gives a page of the first heap |
| `ExampleRun.CachedAfterClose` | lima_vm.c:234-262 | a run after which an MMU has an entry cached that no range has, to a page of a buffer that has been freed |
| `ExampleRun.TableLeftAbsent` | lima_gem.c:131-151 | a run after which a heap can be opened and has no sg table |
| `ExampleRun.TableFreedWhileRead` | lima_gem.c:118-129 | a run after which a growth frees the sg table that another client's lima_vm_bo_add is reading |
| `ExampleRun.RecoveryWithoutTask` | lima_sched.c:822-840 | a run after which the recovery work starts without a current task |
| `ExampleRun.TaskFreedUnderRecovery` | lima_gp.c:299-325 | a run after which a recovery reads the size of its heap through a task that has been freed |
| `ExampleRun.HeapFreedUnderRecovery` | lima_gem.c:118-129 | a run after which a recovery frees the sg table of a heap that does not exist any more |
| `ExampleRun.DeletionMeetsNoTable` | lima_vm.c:249-251 | a run after which closing a handle meets a backing table that was never allocated |
| `ExampleRun.TeardownOfFreedTask` | lima_sched.c:999-1008 | a run after which the teardown looks at a task that has been freed |
| `ExampleRun.SharedHeapExample` | lima_gem.c:137-143 | a run that ends with a job in flight on the PP whose heap has a populated page that is not mapped for it |
| `SchedPipe.LimaPipe.RunJob` | lima_sched.c:464-525 | started exactly if the job carries no error and its fence and the PM reference are had: then the pipe names task and address space, pipe->error is clear, the fence is new, the next number, pending and without an error, and every MMU is on the job's directory with nothing cached; otherwise nothing changes but possibly the number; address-space references stay exact |
| `SchedPipe.LimaPipe.SwitchMmus` | lima_sched.c:512-517 | every MMU of the pipe is switched, by broadcast or one by one |
| `SchedPipe.LimaPipe.TaskDone` | lima_sched.c:1105-1121 | completed exactly if no error is set: then the task's fence, and no other, is signalled with the error it had, in order, and one PM reference goes; with an error nothing changes and the recoverable flag decides between recovery and fault |
| `SchedPipe.LimaPipe.TimedOut` | lima_sched.c:723-760 | the pipe forgets task and address space, dropping that reference once; fences, numbers, signals and the error flag stay as they were |
| `SchedPipe.LimaPipe.WaitIdle` | lima_sched.c:1022-1026 | the wait sleeps while a task is in flight and ends after at most 200 polls, whatever happens during the sleeps |
| `SchedPipe.LimaPipe.Finish` | lima_sched.c:1028-1073 | a task in flight is failed with the hardware reset, a finished one forgotten, and the reference dropped once |
| `SchedPipe.LimaPipe.PipeFini` | lima_sched.c:1010-1084 | bounded teardown: the hardware is reset only if a task is in flight after all 200 polls, the reference is dropped once, the scheduler ends stopped, and the pipe ends with a task and an address space if and only if a job is started between the wait and drm_sched_stop that does not time out before it |
| `SchedPipe.LateTask` | lima_sched.c:1047-1081 | a pipe that has been emptied records a task after some events if and only if one of them starts a job and none after it is a timeout of the job in flight |
| `SchedPipe.EventsMean` | lima_sched.c:464-525 | over any events a job is in flight exactly if one was, or was started, that has neither completed without an error nor timed out since; pipe->error is set exactly if it was, or an interrupt set it, and no job has been started since |
| `SchedPipe.StopFailsOnlyPending` | lima_sched.c:1053-1056 | the teardown fails exactly the in-flight task's fence; with fake_wedge off no signalled fence and no idle pipe is touched; the PM count is left as it is |
| `SchedPipe.QuietStaysQuiet` | lima_sched.c:999-1008 | a pipe that comes to rest stays so unless another job is started on it |
| `GemSubmit.DrmFile.TakeAll` | lima_gem.c:371-394 | takes one range and one GEM reference per handle, up to the first handle that is unknown or not mapped |
| `GemSubmit.DrmFile.GiveBack` | lima_gem.c:448-454 | gives back exactly what was taken |
| `GemSubmit.DrmFile.TaskInit` | lima_sched.c:269-295 | the references taken on success; on a scheduler failure the GEM references stay taken |
| `GemSubmit.DrmFile.TaskFini` | lima_sched.c:309-322 | one GEM reference per buffer and the address-space reference go |
| `GemSubmit.DrmFile.Synchronise` | lima_gem.c:407-418 | the first error among the dependencies and the buffers, or none |
| `GemSubmit.DrmFile.Submit` | lima_gem.c:355-458 | success exactly if every handle is found and each call succeeds: one reference of each kind per listed buffer; ENOENT before any lock, and each later error in order; every failure restores all counters, except that one GEM reference per buffer stays behind if and only if drm_sched_job_init failed |
| `GemSubmit.DrmFile.FreeJob` | lima_sched.c:779-794 | gives back one range and one GEM reference per buffer and the address-space reference |
| `GemSubmit.DrmFile.SubmitThenFree` | lima_gem.c:355-458 | a job queued and freed leaves every counter as it was |
| `HeapSize.SizeIsPower` | lima_gem.c:38-40 | after k successful calls the heap has min(init * 2^(k-1), size) pages, for a non-zero init |
| `HeapSize.SizesGrow` | lima_gem.c:38-67 | the size never shrinks and stays within the buffer |
| `HeapSize.GrowthIsBounded` | lima_gem.c:64-67 | n growths make first pages min(first * 2^n, size), and the n-th starts below the full size only if first * 2^(n-1) is below it |
| `HeapBo.Heap.ReadPages` | lima_gem.c:98-106 | reads the missing pages in order, each wired once more; with a bad page the ones before it are read and wired, and nothing at or after it is touched |
| `HeapBo.Heap.Populate` | lima_gem.c:64-118 | each error in the order it is met before the sg table is touched; on success the whole new size, twice the old one or the initial one up to the buffer, is populated |
| `HeapBo.Heap.Install` | lima_gem.c:120-153 | success keeps the new table and size and maps exactly the new pages; failure leaves no table, the old size, and an exact address space as it was; the exact success condition |
| `HeapBo.Heap.HeapAlloc` | lima_gem.c:33-154 | a call grows to the next size, lists it and maps it, or changes neither the size nor an exact address space; which pages it reads; the table is NULL or covers exactly the populated size; everything the next call needs |
| `HeapBo.Heap.HeapAllocs` | lima_gem.c:33-154 | after any sequence of calls, failed ones included, the size is the one its successes account for, a mapped prefix is still mapped, the address space is still exact, and a table lists exactly the populated part and is there after a last call that succeeded |
| `HeapBo.Heap.HeapCreate` | lima_gem.c:179-183 | the first population, without an address space |
| `HeapBo.CreateAndOpen` | lima_gem.c:179-194 | a heap created and opened in an address space: the table is always there, and on success all populated pages are mapped from the start of the range, as every later growth expects |
| `HeapBo.RetryWiresTwice` | lima_gem.c:98-153 | two growths that fail at dma_map_sgtable leave a wire on a page after the heap has been released |
| `HeapBo.Heap.ReleasePages` | drm/drm_gem_shmem_helper.c:355-376 | after any calls and the release a page has as many wires as calls that read it, less one; all are zero if and only if no call that failed after reading a page was followed by one that read it again |
| `HeapBo.ReadOnceUnlessRetried` | lima_gem.c:98-106 | no page is read twice over any calls if and only if no failed call is retried over a page it had read |
| `HeapBo.OpenAfterFailure` | lima_gem.c:146-151 | a heap whose growth failed at dma_map_sgtable cannot be opened: lima_vm_bo_add meets the NULL table |
| `GpTask.Task.TaskRun` | lima_gp.c:184-213 | the first buffer at the frame's address that is a heap sets the end, the recoverable flag and the first window; without one, whatever other buffers lie there, none of them changes |
| `GpTask.Task.Recover` | lima_gp.c:299-325 | grows exactly if the GP used the whole heap up; from windows that tile what was given it makes contiguous, disjoint, non-empty ones that tile exactly the populated heap if and only if that ends below 4 GiB |
| `GpTask.Task.RunTask` | lima_gp.c:184-325 | a task run on its heap and recovered any number of times: each recovery is a growth, there are at most log2(size / first) + 1, the size is min(first * 2^growths, size), a full heap gives ENOSPC, and the windows tile the populated heap if and only if it ends below 4 GiB |
| `GpTask.Task.RunNewTask` | lima_gp.c:184-325 | from the creation of a heap to the end of a task that uses it: every byte of every window the GP has been given is mapped to the heap's own page, unless the populated heap ends at 4 GiB |
| `GpTask.TilesCover` | lima_gp.c:315-322 | tiling windows are pairwise disjoint and cover every byte of the heap |
| `GpTask.FirstWindow` | lima_gp.c:191-193 | the first window is proper if and only if the heap ends below 4 GiB; at 4 GiB the u32 end wraps to 0 |
| `ShmemSpec.AlwaysAccounted` | drm/drm_gem_shmem_helper.c:548-610 | through every operation and error path the use count is pins plus user mappings plus one for a kernel mapping plus one for a cached table; pages exist exactly while it is positive, the kernel address exactly while vmap_use_count is |
| `ShmemSpec.UsersAreCounted` | drm/drm_gem_shmem_helper.c:618-752 | over every run there are as many kernel mappings and pins as successful calls less those undone, and exactly the user mappings made and not closed; the kernel address is there until the last vunmap, and the pages until the last user is gone |
| `ShmemSpec.MappedIsHeld` | drm/drm_gem_shmem_helper.c:992-1026 | a user page-table entry always maps a page that is held |
| `ShmemSpec.PurgeIsFinal` | drm/drm_gem_shmem_helper.c:944-973 | after a purge, over every later run, no user mapping of a page exists or can be made |
| `ShmemSpec.PurgeKeepsPinned` | drm/drm_gem_shmem_helper.c:944-973 | after a purge the pages stay held exactly while a pin or mapping is left |
| `ShmemSpec.FreeEndsAtZero` | drm/drm_gem_shmem_helper.c:508-536 | freeing an object without pins and mappings ends at zero exactly if it has no kernel mapping or no cached table |
| `Shmem.ShmemObject.FetchPages` | drm/drm_gem_shmem_helper.c:279-344 | the contiguous and the per-page path end in the same state but for the frames; failure at any page gives back all earlier ones |
| `Shmem.ShmemObject.ReadEach` | drm/drm_gem_shmem_helper.c:322-343 | every page wired once, or none |
| `Shmem.ShmemObject.GetPages` | drm/drm_gem_shmem_helper.c:548-576 | first reference fetches the pages and sets their cache attribute; later ones only count |
| `Shmem.ShmemObject.PutPages` | drm/drm_gem_shmem_helper.c:585-610 | last reference restores the attribute and unwires every page once; underflow is refused |
| `Shmem.ShmemObject.Pin` | drm/drm_gem_shmem_helper.c:618-633 | one pin and one use more exactly if the lock and the pages were had, and neither otherwise |
| `Shmem.ShmemObject.Unpin` | drm/drm_gem_shmem_helper.c:641-651 | one pin and one use less; the last use gives the pages back |
| `Shmem.ShmemObject.Vmap` | drm/drm_gem_shmem_helper.c:665-720 | success adds one to vmap_use_count each time, and the first maps the pages and takes the one use all share; failure leaves no reference and no page |
| `Shmem.ShmemObject.Vunmap` | drm/drm_gem_shmem_helper.c:728-752 | one vmap use less; the last unmaps and gives the pages back, and until then the address and the uses stay |
| `Shmem.ShmemObject.Mmap` | drm/drm_gem_shmem_helper.c:1145-1164 | a mapping is counted exactly if the pages were had |
| `Shmem.ShmemObject.VmOpen` | drm/drm_gem_shmem_helper.c:1035-1055 | a copied mapping is counted |
| `Shmem.ShmemObject.VmClose` | drm/drm_gem_shmem_helper.c:1063-1074 | a mapping goes with all its entries |
| `Shmem.ShmemObject.Fault` | drm/drm_gem_shmem_helper.c:992-1026 | inserts the page the address lies in, or SIGBUS exactly if out of range, without pages or purged |
| `Shmem.ShmemObject.GetPagesSgt` | drm/drm_gem_shmem_helper.c:1213-1272 | caches one table with one use of the pages, or gives the pages back |
| `Shmem.ShmemObject.Madvise` | drm/drm_gem_shmem_logic.h:143-149 | the advice is taken unless purged |
| `Shmem.ShmemObject.ZapPtes` | drm/drm_gem_shmem_helper.c:837-893 | every user entry of every page goes |
| `Shmem.ShmemObject.Purge` | drm/drm_gem_shmem_helper.c:944-973 | drops entries, table, one use, and the mmap offset |
| `Shmem.ShmemObject.Free` | drm/drm_gem_shmem_helper.c:508-536 | the count left; zero, with no page wired, when nobody uses the object |
| `PpPipe.Pipe.TaskValidate` | lima_pp.c:601-623 | accepted exactly if the core count is between one and the number present and, with broadcast, the padding is zero |
| `PpPipe.Pipe.IrqHandler` | lima_pp.c:110-127 | one report less is missing; completion exactly at the last |
| `PpPipe.Pipe.CollectReports` | lima_pp.c:110-127 | with one report per core in any order, task_done runs exactly once, at the last report, and takes the error branch if and only if some report was bad |
| `PpPipe.Pipe.BcastIrq` | lima_pp.c:143-187 | the counter stays num_pp less the cores marked done under repeated and spurious interrupts; completion exactly when the last core is first seen done |
| `PpPipe.Pipe.TaskRun` | lima_pp.c:673-693 | each started core has its reset over and its interrupts as the poll left them |
| `PpPipe.Pipe.TaskFini` | lima_pp.c:706-716 | every core has a reset pending, whether the job used it or not, and is masked unless one was pending already |
| `PpPipe.Pipe.TaskError` | lima_pp.c:726-739 | every core is reset hard |
| `PpPipe.Pipe.RunJobs` | lima_pp.c:637-739 | over any run of jobs, with any lost reports, errors and reset polls: a job completes exactly once with its own outcome if all its cores report, and not at all otherwise; which jobs are started with all cores armed; each job leaves the cores as its reports, in their own terms, say |
| `PpPipe.Pipe.RunJob` | lima_pp.c:637-739 | if fewer reports come than cores are used, or one is not Finished, every core is armed exactly if it answers the hard reset, and no soft reset is added; if all come and are Finished every core has a soft reset pending |
| `PpPipe.CoreAfterJob` | lima_pp.c:673-739 | the same of the flags of each core, for every job and every state before it |
| `PpPipe.ArmedIff` | lima_pp.c:673-739 | told by the reports themselves: unless a report of the job before was missing or bad and its hard reset was not answered, a core is started masked if and only if it has been reset softly since it was last armed and that reset does not complete; after a job with a missing or bad report it is always armed |
| `PpPipe.Pipe.FirstJobs` | lima_pp.c:408-413 | after a power-up or resume in which all cores came up, the first job is started with all cores armed, whatever its polls say |
| `GpCore.CompletedIff` | lima_gp.c:51-79 | a job completes exactly if an interrupt comes that has an end, no error and no active unit, and before it only quiet interrupts, and out-of-memory interrupts and MMU faults that a task with a heap recovers from; it is broken exactly if anything else comes first, and running otherwise |
| `GpCore.TimeoutBreaks` | lima_sched.c:723-760 | a timeout before the end breaks the job, whatever comes after it |
| `GpCore.Core.IrqHandler` | lima_gp.c:37-82 | errors mask and report, an end without activity reports, a foreign interrupt does nothing |
| `GpCore.Core.SoftResetWait` | lima_gp.c:108-134 | a completed reset arms the interrupts, an incomplete one stays pending |
| `GpCore.Core.RunJob` | lima_gp.c:175-325 | whatever GP interrupts, MMU faults and timeouts come and whichever polls succeed: it completes exactly under the condition of `CompletedIff`, the GP is started armed exactly if it was armed or its reset completes, a GP started armed is resumed so after every recovery, and is ready for the next job unless a hard reset is not answered |
| `GpCore.Core.FirstJob` | lima_gp.c:357-367 | after a power-up or resume that succeeds the first job is started armed, without a poll |
| `PlatformIrq.TokenDecodes` | linux/platform_logic.h:96-106 | a token is recognised, decodes to its unit and index, and is not negative, for unit below 4096 and index below 256 |
| `PlatformIrq.TokenInjective` | linux/platform_logic.h:96-106 | different devices or interrupts have different tokens |
| `PlatformIrq.TokenOnto` | linux/platform_logic.h:96-106 | every recognised number is a token of some unit and index |
| `PlatformIrq.PlatformDevice.RequestIrq` | linux/platform_device.c:407-482 | one new handler at a free index, or an error and no change; each error case |
| `PlatformIrq.PlatformDevice.TearDown` | linux/platform_device.c:377-391 | tears down once whatever is live at the index |
| `PlatformIrq.PlatformDevice.FreeIrq` | linux/platform_device.c:484-520 | the handler at the index goes, the devres entry stays |
| `PlatformIrq.PlatformDevice.ReleaseDevres` | linux/platform_device.c:533-539 | every index that had a devres entry is torn down, stale entries included |
| `PlatformIrq.PlatformDevice.Detach` | linux/platform_device.c:686-729 | every handler ever set up has been torn down exactly once |
| `PlatformIrq.PlatformDevice.Session` | linux/platform_device.c:377-520 | over any sequence of requests, frees and re-requests ended by a detach, each setup is torn down exactly once |
| `LimaMmu.Mmu.SwitchVm` | lima_mmu.c:403-420 | whatever was cached before and is walked between the register writes, only translations of the new address space are cached afterwards |
| `LimaMmu.Mmu.FlushTlb` | lima_mmu.c:382-385 | nothing stays cached |
| `LimaMmu.Mmu.HwInit` | lima_mmu.c:205-223 | on success the empty address space with paging on and interrupts armed |
| `LimaMmu.Mmu.DteSelfTest` | lima_mmu.c:301-312 | the register reads back the page-aligned part of the pattern |
| `LimaMmu.Mmu.PageFaultResume` | lima_mmu.c:441-461 | an MMU with an active page fault comes back armed on the empty address space whether or not it carries out the two commands, with paging on if it carries out the second; any other is left alone |
| `LimaMmu.Mmu.InterruptAndRecover` | lima_mmu.c:180-186 | the interrupts masked by the handler are armed again exactly if a page fault was active |
| `Device.LimaDevice.InitIp` | lima_device.c:493-544 | a block is up exactly if it exists and its set-up succeeds; only a required one can fail the device |
| `Device.LimaDevice.FiniIps` | lima_device.c:546-563 | the blocks that are up go, last first |
| `Device.LimaDevice.Init` | lima_device.c:772-865 | success exactly if every call and every required block succeeds: then each thing needed, each block that came up, and both pipes are held, each once; otherwise the first error with everything acquired released once and in reverse order |
| `Device.InitErrorByName` | lima_device.c:772-865 | which error that is: of the first call that fails, of the first required block that fails, its interrupt before its initialisation, or of a pipe |
| `Device.FullByName` | lima_device.c:772-865 | a complete bring-up holds clock, regulators, empty VM, both pipes, on Mali-450 the DLBU page, and exactly the blocks that exist and got interrupt and initialisation, nothing twice |
| `Device.IpsUpExactly` | lima_device.c:493-544 | the blocks that are up are those that exist and got their interrupt and their initialisation, each once |
| `Device.LimaDevice.Fini` | lima_device.c:878-904 | undoes a complete bring-up |
| `Device.Power.Resume` | lima_device.c:918-958 | success exactly if clock, regulators, every present block and devfreq succeed: clock and regulators on first, and every present block on, nothing else; otherwise the first error, which is named, with everything off again |
| `Device.IpsOnExactly` | lima_device.c:918-958 | the blocks that come on are the present ones, each once and in order |
| `Device.Power.Suspend` | lima_device.c:974-999 | refused while busy, else everything off in reverse order |
| `Device.WirePp` | lima_device.c:696-712 | cores and MMUs paired in order, each attached one once; every attached core's cache listed, twice exactly if group 0 is unused and group 1 has two cores |
| `Device.AttachedExactly` | lima_device.c:706-708 | the attached cores are those present with their MMU and cache, each once |

## Left out

- The 128 backing tables are windows of one array with a presence flag each; the freeing of the tables themselves in `lima_vm_release` is not modelled.
- Counts are unbounded: the 32-bit wrap-around of use counts and krefs is not modelled. Fences are numbered without bound, and `DeviceTheorems.SeqnoOrder` says what the u32 seqno makes of it.
- `JobSystem` maps the pages of a new range in the step that ends lima_vm_bo_add's loop. That the loop is under way is recorded, so that freeing the table under it is seen, but not the pages it has mapped so far. Nor can an MMU cache a page that a failing loop maps and unmaps again, here or in a growth. The wires of a heap's pages are in `HeapBo` only.
- LimaVm.LimaVm.BoDel: does not cover a range that ends at 4 GiB, whose unmap loop never returns (`Geometry.RangeUnmapEnds`).
- `JobSystem` treats the MMUs of a pipe as all switched and flushed together; which of them a broadcast write reaches on Mali-450 is not modelled. `LimaMmu` shows the register sequence of one.
- PpPipe.Pipe.RunJobs: covers the per-core path; on the broadcast path the cores a soft reset of the broadcast unit reaches depend on `lima_bcast.c`, which is not part of this model.
- Shmem.ShmemObject.GetPages: a growable heap sets its use count and pages itself, so its accounting is in `HeapBo` and not in the shmem equation.
- Imported (PRIME) buffers, dumb buffers, the dma-buf export side, and drm syncobj and dma_resv contents.
- The error dump of `lima_sched.c`, whose sizing does not match its records, and the debug printing.
- `lima_ctx.c`, `lima_dlbu.c`, `lima_bcast.c`, `lima_l2_cache.c`, `lima_pmu.c`, `lima_devfreq.h`, clocks, resets and regulators beyond being on or off: thin wrappers or plain tables.
- `lima_gp_task_validate`, `lima_gem_get_info`, the match-table scan and the index bounds of `linux/platform_logic.h`: each a single comparison or scan that would only add easy members.
- Ioctl argument copying, sysctls, module parameters, and the newbus, OFW and LinuxKPI internals.
- Mali command streams and pixels, cache contents, real time, and weak memory ordering.
