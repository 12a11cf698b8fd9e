/**
 The abstract view of one GPU address space: a map from GPU page to DMA page, and the ranges
 (struct lima_bo_va) handed out to buffer objects.  Pages, not bytes, are the unit here.

 `LimaVm.LimaVm` implements these operations on real page tables; `JobSystem` composes them into
 the system of all address spaces, tasks and pipes.
 */
module VmSpec {
  import opened Geometry

  type BoId = nat
  type Table = map<nat, nat>
  type Vas = map<BoId, Node>

  /**
   One bo_va: the drm_mm node (start, size), its reference count, and the translations that
   were installed for the buffer object in this address space.
   */
  datatype Node = Node(start: nat, size: nat, refs: nat, pages: Table) {
    predicate Owns(p: nat) { start <= p < start + size }

    predicate Sane() { refs > 0 && 0 < size && start + size <= PAGE_COUNT && forall p | p in pages :: Owns(p) }

    function WithRefs(count: nat): Node { Node(start, size, count, pages) }

    function Grown(part: Table): Node { Node(start, size, refs, pages + part) }

    predicate Apart(n: Node) { start + size <= n.start || n.start + n.size <= start }

    ghost predicate Avoids(table: Table) {
      forall p {:trigger p in table} | p in table :: !Owns(p)
    }
  }

  /** `reserved` holds the page mapped at creation time (the Mali-450 DLBU page), if any. */
  datatype View = View(table: Table, vas: Vas, reserved: Table)

  ghost predicate NodesOk(vas: Vas, reserved: Table) {
    && (forall b | b in vas :: vas[b].Sane() && vas[b].Avoids(reserved))
    && (forall a, b | a in vas && b in vas && a != b :: vas[a].Apart(vas[b]))
  }

  ghost predicate Holds(table: Table, part: Table) {
    forall p {:trigger p in part} {:trigger part[p]} | p in part :: p in table && table[p] == part[p]
  }

  ghost predicate AllInstalled(vas: Vas, table: Table) {
    forall b | b in vas :: Holds(table, vas[b].pages)
  }

  ghost predicate Explained(vas: Vas, reserved: Table, p: nat) {
    p in reserved || exists b :: b in vas && p in vas[b].pages
  }

  /** The table holds the installed pages of the live ranges and the reserved page... */
  ghost predicate Kept(v: View) { AllInstalled(v.vas, v.table) && Holds(v.table, v.reserved) }

  /** ...and nothing else. */
  ghost predicate NoStrays(v: View) {
    forall p {:trigger Explained(v.vas, v.reserved, p)} | p in v.table :: Explained(v.vas, v.reserved, p)
  }

  ghost predicate TableExact(v: View) { Kept(v) && NoStrays(v) }

  ghost predicate VmOk(v: View) { NodesOk(v.vas, v.reserved) && TableExact(v) }

  /** What is left of that when a deletion has forgotten some of its pages. */
  ghost predicate VmSound(v: View) { NodesOk(v.vas, v.reserved) && Kept(v) }

  /** The contract of drm_mm_insert_node: `n` is a free range of the managed space. */
  ghost predicate Free(v: View, n: Node) {
    n.Sane() && n.Avoids(v.reserved) && forall b | b in v.vas :: n.Apart(v.vas[b])
  }

  predicate Between(start: nat, p: nat, n: nat) { start <= p < start + n }

  /** The translations of consecutive pages, from GPU page `start` on. */
  function Range(start: nat, pages: seq<nat>): Table {
    map p: nat {:trigger Between(start, p, |pages|)} |
      start <= p < start + |pages| && Between(start, p, |pages|) :: pages[p - start]
  }

  function Cut(table: Table, start: nat, size: nat): Table {
    map p | p in table && !(start <= p < start + size) :: table[p]
  }

  lemma RangeOne(table: Table, start: nat, pages: seq<nat>, i: nat)
    requires i < |pages|
    ensures table + Range(start, pages[..i + 1]) == (table + Range(start, pages[..i]))[start + i := pages[i]]
  {}

  lemma CutOne(table: Table, start: nat, n: nat)
    ensures Cut(table, start, n + 1) == Cut(table, start, n) - {start + n}
  {}

  lemma AddThenCut(table: Table, start: nat, pages: seq<nat>)
    ensures Cut(table + Range(start, pages), start, |pages|) == Cut(table, start, |pages|)
  {}

  function Create(reserved: Table): View { View(reserved, map[], reserved) }

  function AddRef(v: View, b: BoId): View
    requires b in v.vas
  {
    View(v.table, v.vas[b := v.vas[b].WithRefs(v.vas[b].refs + 1)], v.reserved)
  }

  function Insert(v: View, b: BoId, n: Node): View {
    View(v.table + n.pages, v.vas[b := n], v.reserved)
  }

  function Extend(v: View, b: BoId, part: Table): View
    requires b in v.vas
  {
    View(v.table + part, v.vas[b := v.vas[b].Grown(part)], v.reserved)
  }

  lemma ExtendByNothing(v: View, b: BoId, part: Table)
    requires b in v.vas && part == map[]
    ensures Extend(v, b, part) == v
  {
    assert v.vas[b].pages + part == v.vas[b].pages && v.table + part == v.table;
  }

  /** The last user goes: the whole range is given back, but only its first `cut` pages are unmapped. */
  function Remove(v: View, b: BoId, cut: nat): View
    requires b in v.vas
  {
    View(Cut(v.table, v.vas[b].start, cut), v.vas - {b}, v.reserved)
  }

  function Drop(v: View, b: BoId, cut: nat): View
    requires b in v.vas
  {
    if v.vas[b].refs > 1
    then View(v.table, v.vas[b := v.vas[b].WithRefs(v.vas[b].refs - 1)], v.reserved)
    else Remove(v, b, cut)
  }

  /** Some installed page lies past the first `cut`. */
  predicate Overhangs(n: Node, cut: nat) { exists p :: p in n.pages && p >= n.start + cut }

  /** The pages of a growth: inside the range of `b`, and not mapped yet, or mapped just so. */
  ghost predicate Room(v: View, b: BoId, part: Table) {
    b in v.vas && forall p | p in part :: v.vas[b].Owns(p) && (p in v.vas[b].pages ==> v.vas[b].pages[p] == part[p])
  }

  // ----- each operation keeps the table exact

  lemma StillExplained(vas: Vas, vas': Vas, reserved: Table, p: nat)
    requires Explained(vas, reserved, p)
    requires forall b | b in vas && p in vas[b].pages :: b in vas' && p in vas'[b].pages
    ensures Explained(vas', reserved, p)
  {}

  lemma UncoveredIsUnmapped(v: View, p: nat)
    requires TableExact(v) && p !in v.reserved && forall b | b in v.vas :: p !in v.vas[b].pages
    ensures p !in v.table
  {
    assert !Explained(v.vas, v.reserved, p);
  }

  /** A free range is unmapped. */
  lemma FreeIsUnmapped(v: View, n: Node, p: nat)
    requires VmOk(v) && Free(v, n) && n.Owns(p)
    ensures p !in v.table
  {
    forall b | b in v.vas ensures p !in v.vas[b].pages {
      assert n.Apart(v.vas[b]) && v.vas[b].Sane();
    }
    UncoveredIsUnmapped(v, p);
  }

  /** Within a live range only the installed pages are mapped. */
  lemma TailIsUnmapped(v: View, b: BoId, p: nat)
    requires VmOk(v) && b in v.vas && v.vas[b].Owns(p) && p !in v.vas[b].pages
    ensures p !in v.table
  {
    forall c | c in v.vas ensures p !in v.vas[c].pages {
      assert v.vas[c].Sane() && (c != b ==> v.vas[b].Apart(v.vas[c]));
    }
    assert v.vas[b].Avoids(v.reserved);
    UncoveredIsUnmapped(v, p);
  }

  lemma AllStay(vas: Vas, table: Table, table': Table)
    requires AllInstalled(vas, table) && Holds(table', table)
    ensures AllInstalled(vas, table')
  {}

  /** The shared core of adding, growing and counting: `b` gets node `n` in a larger table. */
  lemma PutKeepsExact(v: View, b: BoId, n: Node, table: Table)
    requires TableExact(v) && Holds(table, v.table) && Holds(table, n.pages)
    requires forall p | p in table :: p in v.table || p in n.pages
    requires b in v.vas ==> forall p | p in v.vas[b].pages :: p in n.pages
    ensures TableExact(View(table, v.vas[b := n], v.reserved))
  {
    var vas := v.vas[b := n];
    AllStay(v.vas, v.table, table);
    forall p | p in table ensures Explained(vas, v.reserved, p) {
      if p in n.pages {
        assert p in vas[b].pages;
      } else {
        StillExplained(v.vas, vas, v.reserved, p);
      }
    }
  }

  lemma NodesStayApart(vas: Vas, reserved: Table, b: BoId, n: Node)
    requires NodesOk(vas, reserved) && b in vas
    requires n.Sane() && n.start == vas[b].start && n.size == vas[b].size
    ensures NodesOk(vas[b := n], reserved)
  {}

  lemma NodeReplaced(v: View, b: BoId, n: Node, table: Table)
    requires VmOk(v) && b in v.vas && Holds(table, v.table) && Holds(table, n.pages)
    requires n.Sane() && n.start == v.vas[b].start && n.size == v.vas[b].size
    requires forall p | p in v.vas[b].pages :: p in n.pages
    requires forall p | p in table :: p in v.table || p in n.pages
    ensures VmOk(View(table, v.vas[b := n], v.reserved))
  {
    PutKeepsExact(v, b, n, table);
    NodesStayApart(v.vas, v.reserved, b, n);
  }

  lemma RefsOk(v: View, b: BoId, refs: nat)
    requires VmOk(v) && b in v.vas && refs > 0
    ensures VmOk(View(v.table, v.vas[b := v.vas[b].WithRefs(refs)], v.reserved))
  {
    NodeReplaced(v, b, v.vas[b].WithRefs(refs), v.table);
  }

  /** Adding a range changes no translation that was already there. */
  lemma InsertOk(v: View, b: BoId, n: Node)
    requires VmOk(v) && b !in v.vas && Free(v, n)
    ensures VmOk(Insert(v, b, n)) && Holds(Insert(v, b, n).table, v.table)
  {
    forall p | p in v.table ensures p !in n.pages {
      if p in n.pages { FreeIsUnmapped(v, n, p); }
    }
    PutKeepsExact(v, b, n, v.table + n.pages);
  }

  /** Nor does growing one. */
  lemma ExtendOk(v: View, b: BoId, part: Table)
    requires VmOk(v) && Room(v, b, part)
    ensures VmOk(Extend(v, b, part)) && Holds(Extend(v, b, part).table, v.table)
  {
    ExtendFacts(v, b, part, v.vas[b].Grown(part), v.table + part);
    NodeReplaced(v, b, v.vas[b].Grown(part), v.table + part);
  }

  lemma ExtendFacts(v: View, b: BoId, part: Table, n: Node, table: Table)
    requires VmOk(v) && Room(v, b, part) && n == v.vas[b].Grown(part) && table == v.table + part
    ensures Holds(table, v.table) && Holds(table, n.pages) && n.Sane()
  {
    assert Holds(v.table, v.vas[b].pages) && v.vas[b].Sane();
    forall p | p in part && p in v.table ensures v.table[p] == part[p] {
      if p !in v.vas[b].pages {
        TailIsUnmapped(v, b, p);
      }
    }
  }

  // ----- and what a deletion may leave behind

  /** The pages a free range offers are used by nobody. */
  lemma FreeIsUnused(v: View, n: Node, done: nat)
    requires NodesOk(v.vas, v.reserved) && Free(v, n) && done <= n.size
    ensures forall p | Between(n.start, p, done) :: p !in v.reserved && forall b | b in v.vas :: p !in v.vas[b].pages
  {
    forall p | Between(n.start, p, done) ensures p !in v.reserved && forall b | b in v.vas :: p !in v.vas[b].pages {
      assert n.Owns(p);
      forall b | b in v.vas ensures p !in v.vas[b].pages {
        assert n.Apart(v.vas[b]) && v.vas[b].Sane();
      }
    }
  }

  /** Nor are those of a range past its installed ones. */
  lemma OwnTailUnused(v: View, b: BoId, first: nat, done: nat)
    requires NodesOk(v.vas, v.reserved) && b in v.vas && v.vas[b].start <= first
    requires first + done <= v.vas[b].start + v.vas[b].size && forall p | p in v.vas[b].pages :: p < first
    ensures forall p | Between(first, p, done) :: p !in v.reserved && forall c | c in v.vas :: p !in v.vas[c].pages
  {
    var n := v.vas[b];
    forall p | Between(first, p, done) ensures p !in v.reserved && forall c | c in v.vas :: p !in v.vas[c].pages {
      assert n.Owns(p) && n.Avoids(v.reserved);
      forall c | c in v.vas ensures p !in v.vas[c].pages {
        assert v.vas[c].Sane() && (c != b ==> n.Apart(v.vas[c]));
      }
    }
  }

  /** Counting users changes nothing else. */
  lemma RefSound(v: View, b: BoId, refs: nat)
    requires VmSound(v) && b in v.vas && refs > 0
    ensures VmSound(View(v.table, v.vas[b := v.vas[b].WithRefs(refs)], v.reserved))
    ensures NoStrays(v) ==> NoStrays(View(v.table, v.vas[b := v.vas[b].WithRefs(refs)], v.reserved))
  {
    NodesStayApart(v.vas, v.reserved, b, v.vas[b].WithRefs(refs));
    if NoStrays(v) { RefsOk(v, b, refs); }
  }

  lemma InsertSound(v: View, b: BoId, n: Node)
    requires VmSound(v) && b !in v.vas && Free(v, n)
    ensures VmSound(Insert(v, b, n))
  {
    forall c | c in v.vas ensures Holds(v.table + n.pages, v.vas[c].pages) {
      assert n.Apart(v.vas[c]) && v.vas[c].Sane() && Holds(v.table, v.vas[c].pages);
    }
  }

  lemma ExtendSound(v: View, b: BoId, part: Table)
    requires VmSound(v) && Room(v, b, part)
    ensures VmSound(Extend(v, b, part))
  {
    var n := v.vas[b];
    assert n.Sane() && n.Avoids(v.reserved) && Holds(v.table, n.pages);
    forall c | c in v.vas && c != b ensures Holds(v.table + part, v.vas[c].pages) {
      assert n.Apart(v.vas[c]) && v.vas[c].Sane() && Holds(v.table, v.vas[c].pages);
    }
    NodesStayApart(v.vas, v.reserved, b, n.Grown(part));
  }

  lemma DropSound(v: View, b: BoId, cut: nat)
    requires VmSound(v) && b in v.vas && cut <= v.vas[b].size
    ensures VmSound(Drop(v, b, cut))
  {
    var n := v.vas[b];
    assert n.Sane() && n.Avoids(v.reserved) && Holds(v.table, n.pages);
    if n.refs > 1 {
      NodesStayApart(v.vas, v.reserved, b, n.WithRefs(n.refs - 1));
    } else {
      forall c | c in v.vas && c != b ensures Holds(Cut(v.table, n.start, cut), v.vas[c].pages) {
        assert v.vas[c].Apart(n) && v.vas[c].Sane() && Holds(v.table, v.vas[c].pages);
      }
    }
  }

  /** An unmapped stretch of free pages unmaps no live range. */
  lemma CutSound(v: View, start: nat, n: nat)
    requires VmSound(v)
    requires forall p | Between(start, p, n) :: p !in v.reserved && forall b | b in v.vas :: p !in v.vas[b].pages
    ensures VmSound(View(Cut(v.table, start, n), v.vas, v.reserved))
    ensures NoStrays(v) ==> Cut(v.table, start, n) == v.table
  {
    forall b | b in v.vas ensures Holds(Cut(v.table, start, n), v.vas[b].pages) {
      assert Holds(v.table, v.vas[b].pages);
      forall p | p in v.vas[b].pages ensures !Between(start, p, n) {}
    }
    forall p | p in v.reserved ensures !Between(start, p, n) {}
    if NoStrays(v) {
      forall p | Between(start, p, n) ensures p !in v.table {
        UncoveredIsUnmapped(v, p);
      }
    }
  }

  /** A page of the range past the cut stays mapped, and no range explains it. */
  lemma LeftBehind(v: View, b: BoId, cut: nat, p: nat)
    requires VmSound(v) && b in v.vas && v.vas[b].refs == 1 && p in v.vas[b].pages && p >= v.vas[b].start + cut
    ensures var w := Drop(v, b, cut);
            p in w.table && w.table[p] == v.vas[b].pages[p] && !Explained(w.vas, w.reserved, p)
  {
    assert v.vas[b].Sane() && v.vas[b].Avoids(v.reserved) && Holds(v.table, v.vas[b].pages);
    forall c | c in v.vas && c != b ensures p !in v.vas[c].pages {
      assert v.vas[b].Apart(v.vas[c]) && v.vas[c].Sane();
    }
  }

  lemma RemoveExact(v: View, b: BoId, cut: nat)
    requires VmOk(v) && b in v.vas && cut <= v.vas[b].size && v.vas[b].refs == 1 && !Overhangs(v.vas[b], cut)
    ensures NoStrays(Drop(v, b, cut))
  {
    var n, w := v.vas[b], Drop(v, b, cut);
    assert n.Sane();
    forall p | p in w.table ensures Explained(w.vas, w.reserved, p) {
      assert Explained(v.vas, v.reserved, p);
      if p !in v.reserved {
        var c :| c in v.vas && p in v.vas[c].pages;
        assert c != b && p in w.vas[c].pages;
      }
    }
  }

  /**
   A deletion keeps the table exact if and only if it is not the last, or every installed page of
   the range is among those it unmaps.
   */
  lemma DropOk(v: View, b: BoId, cut: nat)
    requires VmOk(v) && b in v.vas && cut <= v.vas[b].size
    ensures VmOk(Drop(v, b, cut)) <==> v.vas[b].refs > 1 || !Overhangs(v.vas[b], cut)
  {
    var n := v.vas[b];
    assert n.Sane();
    if n.refs > 1 {
      RefsOk(v, b, n.refs - 1);
    } else if Overhangs(n, cut) {
      var p :| p in n.pages && p >= n.start + cut;
      LeftBehind(v, b, cut, p);
    } else {
      DropSound(v, b, cut);
      RemoveExact(v, b, cut);
    }
  }

  /** Deleting a range that was just added gives the view back exactly if its pages are all unmapped. */
  lemma InsertThenDrop(v: View, b: BoId, n: Node, cut: nat)
    requires VmOk(v) && b !in v.vas && Free(v, n) && n.refs == 1 && cut <= n.size
    ensures Drop(Insert(v, b, n), b, cut) == v <==> !Overhangs(n, cut)
  {
    InsertOk(v, b, n);
    DropOk(Insert(v, b, n), b, cut);
    assert v.vas[b := n] - {b} == v.vas;
    forall p | p in v.table ensures !n.Owns(p) {
      if n.Owns(p) { FreeIsUnmapped(v, n, p); }
    }
    if !Overhangs(n, cut) {
      assert Cut(v.table + n.pages, n.start, cut) == v.table;
    }
  }

  // ----- runs

  datatype Op =
    | OpAdd(b: BoId, n: Node)
    | OpRef(b: BoId)
    | OpDel(b: BoId, cut: nat)
    | OpMap(b: BoId, part: Table)

  ghost predicate CanApply(v: View, op: Op) {
    match op
    case OpAdd(b, n) => b !in v.vas && Free(v, n) && n.refs == 1
    case OpRef(b) => b in v.vas
    case OpDel(b, cut) => b in v.vas && cut <= v.vas[b].size
    case OpMap(b, part) => Room(v, b, part)
  }

  ghost function Apply(v: View, op: Op): View
    requires CanApply(v, op)
  {
    match op
    case OpAdd(b, n) => Insert(v, b, n)
    case OpRef(b) => AddRef(v, b)
    case OpDel(b, cut) => Drop(v, b, cut)
    case OpMap(b, part) => Extend(v, b, part)
  }

  ghost predicate IsOpRun(vs: seq<View>, ops: seq<Op>, reserved: Table) {
    && |vs| == |ops| + 1 && vs[0] == Create(reserved)
    && forall i | 0 <= i < |ops| :: CanApply(vs[i], ops[i]) && vs[i + 1] == Apply(vs[i], ops[i])
  }

  /** The last deletion of a range with an installed page it does not unmap. */
  predicate Forgets(v: View, op: Op) {
    op.OpDel? && op.b in v.vas && v.vas[op.b].refs == 1 && Overhangs(v.vas[op.b], op.cut)
  }

  lemma ApplyOk(v: View, op: Op)
    requires VmOk(v) && CanApply(v, op)
    ensures VmOk(Apply(v, op)) <==> !Forgets(v, op)
  {
    match op
    case OpAdd(b, n) => InsertOk(v, b, n);
    case OpRef(b) => RefsOk(v, b, v.vas[b].refs + 1);
    case OpDel(b, cut) =>
      assert v.vas[b].Sane();
      DropOk(v, b, cut);
    case OpMap(b, part) => ExtendOk(v, b, part);
  }

  lemma ApplySound(v: View, op: Op)
    requires VmSound(v) && CanApply(v, op)
    ensures VmSound(Apply(v, op))
  {
    match op
    case OpAdd(b, n) => InsertSound(v, b, n);
    case OpRef(b) => NodesStayApart(v.vas, v.reserved, b, v.vas[b].WithRefs(v.vas[b].refs + 1));
    case OpDel(b, cut) => DropSound(v, b, cut);
    case OpMap(b, part) => ExtendSound(v, b, part);
  }

  /**
   In every state of every run of additions, references, deletions and growths the installed pages
   of the live ranges, and the reserved page, are mapped as they should be.
   */
  lemma {:induction false} SoundInEveryRun(vs: seq<View>, ops: seq<Op>, reserved: Table, k: nat)
    requires IsOpRun(vs, ops, reserved) && k < |vs|
    ensures VmSound(vs[k])
  {
    if k > 0 {
      SoundInEveryRun(vs, ops, reserved, k - 1);
      ApplySound(vs[k - 1], ops[k - 1]);
    }
  }

  ghost predicate ExactUpTo(vs: seq<View>, k: nat)
    requires k < |vs|
  {
    forall j | 0 <= j <= k :: VmOk(vs[j])
  }

  ghost predicate NoneForgets(vs: seq<View>, ops: seq<Op>, k: nat)
    requires k <= |vs| && k <= |ops|
  {
    forall i | 0 <= i < k :: !Forgets(vs[i], ops[i])
  }

  /** And nothing else is mapped, in any state up to the k-th, exactly if no deletion before it forgot a page. */
  lemma {:induction false} TableExactInEveryRun(vs: seq<View>, ops: seq<Op>, reserved: Table, k: nat)
    requires IsOpRun(vs, ops, reserved) && k < |vs|
    ensures ExactUpTo(vs, k) <==> NoneForgets(vs, ops, k)
  {
    if k > 0 {
      TableExactInEveryRun(vs, ops, reserved, k - 1);
      assert ExactUpTo(vs, k) <==> ExactUpTo(vs, k - 1) && VmOk(vs[k]);
      if ExactUpTo(vs, k - 1) {
        ApplyOk(vs[k - 1], ops[k - 1]);
      }
    }
  }
}
