/** The flat random program generator: a list of blocks decided first, then expanded to
    labelled words and assembled. Its programs are laid-out structured programs. */
module RandomGen {
  import opened Bits
  import opened Isa
  import opened Runs
  import opened Structured
  import opened Wrappers
  import opened LeafWords
  import opened Emission
  import opened Layouts

  /** A block with all its random choices. `LoopBlock` is the counted loop and the
      bit-bang burst, `RetryBlock` the bounded poll. */
  datatype Block =
    | LeafBlock(word: Word)
    | BranchBlock(cond: nat, target: nat)
    | CallBlock
    | LoopBlock(before: seq<Word>, reg: nat, count: nat, body: seq<Word>, after: seq<Word>)
    | RetryBlock(reg: nat, count: nat, wait: Word, last: Word)

  predicate Plain(ws: seq<Word>) {
    forall k :: 0 <= k < |ws| ==> DefinedLeaf(ws[k])
  }

  predicate Protected(ws: seq<Word>, reg: nat) {
    forall k :: 0 <= k < |ws| ==> Keeps(ws[k], {reg})
  }

  predicate GoodBlock(b: Block, i: nat, n: nat) {
    match b
    case LeafBlock(w) => DefinedLeaf(w)
    case BranchBlock(cond, target) => cond < COND_CALL && i < target < n
    case CallBlock => true
    case LoopBlock(before, reg, count, body, after) =>
      reg < 4 && 1 <= count <= 8 && Plain(before) && Plain(body) && Protected(body, reg) && Plain(after) && body != []
    case RetryBlock(reg, count, wait, last) =>
      reg < 4 && 1 <= count <= 8 && DefinedLeaf(wait) && Decode(wait).Wait? && DefinedLeaf(last)
  }

  predicate GoodBlocks(bs: seq<Block>) {
    forall i :: 0 <= i < |bs| ==> GoodBlock(bs[i], i, |bs|)
  }

  // ------------------------------------------------------------ structure

  function Leaves(ws: seq<Word>): (items: seq<Item>)
    ensures |items| == |ws|
  {
    if ws == [] then [] else Leaves(ws[..|ws| - 1]) + [Leaf(ws[|ws| - 1])]
  }

  lemma {:induction false} LeavesAt(ws: seq<Word>)
    ensures forall k :: 0 <= k < |ws| ==> Leaves(ws)[k] == Leaf(ws[k])
  {
    if ws != [] {
      LeavesAt(ws[..|ws| - 1]);
    }
  }

  function ItemCount(b: Block): (n: nat)
    ensures n >= 1
  {
    match b
    case LoopBlock(before, _, _, _, after) => |before| + 1 + |after|
    case RetryBlock(_, _, _, _) => 2
    case _ => 1
  }

  function First(bs: seq<Block>, i: nat): nat
    requires i <= |bs|
  {
    if i == 0 then 0 else First(bs, i - 1) + ItemCount(bs[i - 1])
  }

  function LoopItems(b: Block): (items: seq<Item>)
    requires b.LoopBlock?
    ensures |items| == |b.before| + 1 + |b.after|
  {
    Leaves(b.before) + [Item.Loop(b.reg, b.count, Leaves(b.body))] + Leaves(b.after)
  }

  lemma LoopItemAt(b: Block, m: nat)
    requires b.LoopBlock? && m < |LoopItems(b)|
    ensures var s := |b.before|;
            LoopItems(b)[m] == if m < s then Leaf(b.before[m])
              else if m == s then Item.Loop(b.reg, b.count, Leaves(b.body))
                               else Leaf(b.after[m - s - 1])
  {
    LeavesAt(b.before);
    LeavesAt(b.after);
  }

  function BlockItems(bs: seq<Block>, i: nat): (items: seq<Item>)
    requires i < |bs|
    ensures |items| == ItemCount(bs[i])
  {
    match bs[i]
    case LeafBlock(w) => [Leaf(w)]
    case BranchBlock(cond, target) => [Item.Branch([], cond, Sibling(if target <= |bs| then First(bs, target) else 0))]
    case CallBlock => [Item.Call]
    case LoopBlock(_, _, _, _, _) => LoopItems(bs[i])
    case RetryBlock(reg, count, wait, last) =>
      [Item.Loop(reg, count, [Item.Branch([wait], COND_BNE, Break)]), Leaf(last)]
  }

  function ItemsTo(bs: seq<Block>, n: nat): (items: seq<Item>)
    requires n <= |bs|
    ensures |items| == First(bs, n)
  {
    if n == 0 then [] else ItemsTo(bs, n - 1) + BlockItems(bs, n - 1)
  }

  function Items(bs: seq<Block>): seq<Item> {
    ItemsTo(bs, |bs|)
  }

  // ------------------------------------------------------------ listing

  function Straight(ws: seq<Word>): (es: seq<Entry>)
    ensures |es| == |ws| && forall k :: 0 <= k < |ws| ==> es[k] == Entry([], Fixed(ws[k]))
  {
    if ws == [] then [] else Straight(ws[..|ws| - 1]) + [Entry([], Fixed(ws[|ws| - 1]))]
  }

  function WithLabels(ls: seq<Label>, es: seq<Entry>): (r: seq<Entry>)
    ensures |r| == |es|
  {
    if es == [] then es else [Entry(ls + es[0].labels, es[0].code)] + es[1..]
  }

  function BareEntries(b: Block, i: nat): (es: seq<Entry>)
  {
    match b
    case LeafBlock(w) => [Entry([], Fixed(w))]
    case BranchBlock(cond, target) => [Entry([], BranchTo(cond, BlockStart(target)))]
    case CallBlock => [Entry([], CallSub)]
    case LoopBlock(before, reg, count, body, after) =>
      Straight(before) + [Entry([], Fixed(Encode(Ldi(reg, count))))] + WithLabels([LoopStart(i)], Straight(body))
      + [Entry([], LoopTo(LoopStart(i), reg))] + Straight(after)
    case RetryBlock(reg, count, wait, last) =>
      [Entry([], Fixed(Encode(Ldi(reg, count)))), Entry([LoopStart(i)], Fixed(wait)),
        Entry([], BranchTo(COND_BNE, LoopDone(i))),
       Entry([], LoopTo(LoopStart(i), reg)), Entry([LoopDone(i)], Fixed(last))]
  }

  function BareOf(bs: seq<Block>, i: nat): seq<Entry>
    requires i < |bs|
  {
    BareEntries(bs[i], i)
  }

  /** `marks` holds the blocks some branch leads to: they carry a label. */
  function BlockEntries(bs: seq<Block>, marks: set<nat>, i: nat): (es: seq<Entry>)
    requires i < |bs|
    ensures |es| == |BareOf(bs, i)|
  {
    WithLabels(if i in marks then [BlockStart(i)] else [], BareEntries(bs[i], i))
  }

  function ListingTo(bs: seq<Block>, marks: set<nat>, n: nat): seq<Entry>
    requires n <= |bs|
  {
    if n == 0 then [] else ListingTo(bs, marks, n - 1) + BlockEntries(bs, marks, n - 1)
  }

  function Size(b: Block): nat {
    match b
    case LoopBlock(before, _, _, body, after) => |before| + |body| + |after| + 2
    case RetryBlock(_, _, _, _) => 5
    case _ => 1
  }

  function Address(bs: seq<Block>, n: nat): nat
    requires n <= |bs|
  {
    if n == 0 then 0 else Address(bs, n - 1) + Size(bs[n - 1])
  }

  // ------------------------------------------------------------ sizes

  lemma {:induction false} StartOfPrefix(a: seq<Item>, b: seq<Item>, m: nat)
    requires m <= |a|
    ensures Start(a + b, m) == Start(a, m)
    decreases m
  {
    if m > 0 {
      StartOfPrefix(a, b, m - 1);
    }
  }

  lemma {:induction false} StartConcat(a: seq<Item>, b: seq<Item>, m: nat)
    requires m <= |b|
    ensures Start(a + b, |a| + m) == SeqSize(a) + Start(b, m)
    decreases m
  {
    if m == 0 {
      StartOfPrefix(a, b, |a|);
    } else {
      StartConcat(a, b, m - 1);
    }
  }

  lemma {:induction false} LeavesStart(ws: seq<Word>, k: nat)
    requires k <= |ws|
    ensures Start(Leaves(ws), k) == k
    decreases k
  {
    LeavesAt(ws);
    if k > 0 {
      LeavesStart(ws, k - 1);
    }
  }

  /** A loop of leaf words is two words longer than its body. */
  lemma LoopSize(reg: nat, count: nat, body: seq<Word>)
    ensures SeqSize(Leaves(body)) == |body| && ItemSize(Item.Loop(reg, count, Leaves(body))) == |body| + 2
  {
    LeavesStart(body, |body|);
  }

  /** Where the items of a loop block begin. */
  lemma LoopBlockStart(before: seq<Word>, it: Item, after: seq<Word>, m: nat)
    requires m <= |before| + 1 + |after|
    ensures Start(Leaves(before) + [it] + Leaves(after), m) ==
            if m <= |before| then m else |before| + ItemSize(it) + (m - |before| - 1)
  {
    var a, mid, b := Leaves(before), [it], Leaves(after);
    if m <= |before| {
      StartOfPrefix(a + mid, b, m);
      StartOfPrefix(a, mid, m);
      LeavesStart(before, m);
    } else {
      StartConcat(a + mid, b, m - |before| - 1);
      StartConcat(a, mid, 1);
      LeavesStart(before, |before|);
      LeavesStart(after, m - |before| - 1);
      assert Start(mid, 1) == Start(mid, 0) + ItemSize(mid[0]);
    }
  }

  lemma RetrySize(reg: nat, count: nat, wait: Word)
    ensures var it := Item.Loop(reg, count, [Item.Branch([wait], COND_BNE, Break)]);
            SeqSize(it.body) == 2 && ItemSize(it) == 4
  {
    var body := [Item.Branch([wait], COND_BNE, Break)];
    assert Start(body, 1) == Start(body, 0) + ItemSize(body[0]);
  }

  lemma BlockSize(bs: seq<Block>, i: nat)
    requires i < |bs| && GoodBlocks(bs)
    ensures SeqSize(BlockItems(bs, i)) == Size(bs[i])
    ensures |BareOf(bs, i)| == Size(bs[i])
  {
    assert GoodBlock(bs[i], i, |bs|);
    var items := BlockItems(bs, i);
    match bs[i]
    case LoopBlock(before, reg, count, body, after) =>
      LoopSize(reg, count, body);
      LoopBlockStart(before, Item.Loop(reg, count, Leaves(body)), after, |items|);
      hide Leaves;
    case RetryBlock(reg, count, wait, last) =>
      RetrySize(reg, count, wait);
      assert Start(items, 2) == Start(items, 1) + ItemSize(items[1]);
      assert Start(items, 1) == Start(items, 0) + ItemSize(items[0]);
    case _ =>
      assert Start(items, 1) == Start(items, 0) + ItemSize(items[0]);
  }

  lemma FirstStep(bs: seq<Block>, i: nat)
    requires i < |bs|
    ensures First(bs, i + 1) == First(bs, i) + ItemCount(bs[i])
  {
  }

  lemma UnfoldBlocks(bs: seq<Block>, n: nat)
    requires 0 < n <= |bs|
    ensures ItemsTo(bs, n) == ItemsTo(bs, n - 1) + BlockItems(bs, n - 1)
    ensures Address(bs, n) == Address(bs, n - 1) + Size(bs[n - 1])
  {
    hide BlockItems, Size;
  }

  lemma {:induction false} ItemsPrefix(bs: seq<Block>, n: nat, N: nat)
    requires n <= N <= |bs|
    ensures First(bs, n) <= First(bs, N) && ItemsTo(bs, N)[..First(bs, n)] == ItemsTo(bs, n)
    decreases N
  {
    hide *;
    if n < N {
      ItemsPrefix(bs, n, N - 1);
      UnfoldBlocks(bs, N);
      FirstStep(bs, N - 1);
    }
  }

  /** Block `n` begins at its address. */
  lemma {:induction false} StartsTo(bs: seq<Block>, n: nat)
    requires GoodBlocks(bs) && n <= |bs|
    ensures SeqSize(ItemsTo(bs, n)) == Address(bs, n)
  {
    hide *;
    if n == 0 {
      NoItems(bs);
    } else {
      UnfoldBlocks(bs, n);
      StartsTo(bs, n - 1);
      BlockSize(bs, n - 1);
      SizeConcat(ItemsTo(bs, n - 1), BlockItems(bs, n - 1));
    }
  }

  lemma NoItems(bs: seq<Block>)
    ensures SeqSize(ItemsTo(bs, 0)) == 0 == Address(bs, 0)
  {
  }

  lemma SizeConcat(a: seq<Item>, b: seq<Item>)
    ensures SeqSize(a + b) == SeqSize(a) + SeqSize(b)
  {
    StartConcat(a, b, |b|);
  }

  lemma SplitItems(bs: seq<Block>, n: nat)
    requires n < |bs|
    ensures First(bs, n) + ItemCount(bs[n]) == First(bs, n + 1) <= |Items(bs)|
    ensures Items(bs) == (ItemsTo(bs, n) + BlockItems(bs, n)) + Items(bs)[First(bs, n + 1)..]
  {
    assert Items(bs) == ItemsTo(bs, |bs|);
    hide *;
    ItemsPrefix(bs, n + 1, |bs|);
    UnfoldBlocks(bs, n + 1);
    FirstStep(bs, n);
    Rejoin(Items(bs), ItemsTo(bs, n + 1), First(bs, n + 1));
  }

  lemma Rejoin(s: seq<Item>, p: seq<Item>, f: nat)
    requires f <= |s| && s[..f] == p
    ensures s == p + s[f..]
  {
  }

  /** The items of block `n`, in the whole sequence. */
  lemma BlockStarts(bs: seq<Block>, n: nat, m: nat)
    requires GoodBlocks(bs) && n < |bs| && m <= ItemCount(bs[n])
    ensures First(bs, n) + m <= |Items(bs)|
    ensures Start(Items(bs), First(bs, n) + m) == Address(bs, n) + Start(BlockItems(bs, n), m)
    ensures m < ItemCount(bs[n]) ==>
              First(bs, n) + m < |Items(bs)| && Items(bs)[First(bs, n) + m] == BlockItems(bs, n)[m]
  {
    hide BlockItems, GoodBlocks, ItemsTo, Items, Start, ItemSize, ItemCount, Address;
    var a, b := ItemsTo(bs, n), BlockItems(bs, n);
    SplitItems(bs, n);
    StartConcat(a, b, m);
    StartsTo(bs, n);
    StartOfPrefix(a + b, Items(bs)[First(bs, n + 1)..], |a| + m);
  }

  lemma {:induction false} ListingAt(bs: seq<Block>, marks: set<nat>, n: nat, k: nat, N: nat)
    requires GoodBlocks(bs) && n < N <= |bs| && k < Size(bs[n])
    ensures |ListingTo(bs, marks, N)| == Address(bs, N) && Address(bs, n) + k < Address(bs, N)
    ensures |BlockEntries(bs, marks, n)| == Size(bs[n])
    ensures ListingTo(bs, marks, N)[Address(bs, n) + k] == BlockEntries(bs, marks, n)[k]
    decreases N
  {
    hide *;
    BlockSize(bs, N - 1);
    BlockSize(bs, n);
    ListingLength(bs, marks, N - 1);
    UnfoldListing(bs, marks, N);
    UnfoldBlocks(bs, N);
    if n < N - 1 {
      ListingAt(bs, marks, n, k, N - 1);
    }
  }

  lemma {:induction false} ListingLength(bs: seq<Block>, marks: set<nat>, N: nat)
    requires GoodBlocks(bs) && N <= |bs|
    ensures |ListingTo(bs, marks, N)| == Address(bs, N)
  {
    hide *;
    if N == 0 {
      NoListing(bs, marks);
    } else {
      ListingLength(bs, marks, N - 1);
      BlockSize(bs, N - 1);
      UnfoldBlocks(bs, N);
      UnfoldListing(bs, marks, N);
    }
  }

  lemma NoListing(bs: seq<Block>, marks: set<nat>)
    requires GoodBlocks(bs)
    ensures |ListingTo(bs, marks, 0)| == 0 == Address(bs, 0)
  {
  }

  lemma UnfoldListing(bs: seq<Block>, marks: set<nat>, n: nat)
    requires 0 < n <= |bs| && GoodBlocks(bs)
    ensures ListingTo(bs, marks, n) == ListingTo(bs, marks, n - 1) + BlockEntries(bs, marks, n - 1)
  {
    hide BlockEntries, GoodBlocks;
  }

  // ------------------------------------------------------------ labels

  /** Labels of block `i`. */
  predicate Owned(l: Label, i: nat) {
    l == BlockStart(i) || l == LoopStart(i) || l == LoopDone(i)
  }

  predicate OwnedBelow(m: multiset<Label>, n: nat) {
    forall l :: l in m ==> (l.BlockStart? || l.LoopStart? || l.LoopDone?) && l.n < n
  }

  lemma {:induction false} StraightLabels(ws: seq<Word>)
    ensures LabelsOf(Straight(ws)) == multiset{}
  {
    if ws != [] {
      StraightLabels(ws[..|ws| - 1]);
      assert Straight(ws)[..|ws| - 1] == Straight(ws[..|ws| - 1]);
    }
  }

  lemma LabelsOfOne(e: Entry)
    ensures LabelsOf([e]) == multiset(e.labels)
  {
    assert [e][..0] == [];
  }

  lemma WithLabelsLabels(ls: seq<Label>, es: seq<Entry>)
    requires es != []
    ensures LabelsOf(WithLabels(ls, es)) == multiset(ls) + LabelsOf(es)
  {
    var first := Entry(ls + es[0].labels, es[0].code);
    LabelsOfConcat([first], es[1..]);
    LabelsOfConcat([es[0]], es[1..]);
    LabelsOfOne(first);
    LabelsOfOne(es[0]);
    assert [es[0]] + es[1..] == es;
  }

  lemma BareLabels(b: Block, i: nat)
    requires (b.LoopBlock? ==> b.body != []) && (b.LoopBlock? || b.RetryBlock? ==> b.reg < 4)
    ensures BareEntries(b, i) != []
    ensures LabelsOf(BareEntries(b, i)) ==
            if b.LoopBlock? then multiset{LoopStart(i)}
              else if b.RetryBlock? then multiset{LoopStart(i), LoopDone(i)} else multiset{}
  {
    match b
    case LeafBlock(w) => LabelsOfOne(Entry([], Fixed(w)));
    case BranchBlock(cond, target) => LabelsOfOne(Entry([], BranchTo(cond, BlockStart(target))));
    case CallBlock => LabelsOfOne(Entry([], CallSub));
    case LoopBlock(before, reg, count, body, after) =>
      LoopLabels(b, i);
    case RetryBlock(reg, count, wait, last) =>
      RetryLabels(b, i);
  }

  /** The five parts of a loop block's listing. */
  function LoopParts(b: Block, i: nat): seq<seq<Entry>>
    requires b.LoopBlock?
  {
    [Straight(b.before), [Entry([], Fixed(Encode(Ldi(b.reg, b.count))))], WithLabels([LoopStart(i)], Straight(b.body)),
     [Entry([], LoopTo(LoopStart(i), b.reg))], Straight(b.after)]
  }

  lemma LoopLabels(b: Block, i: nat)
    requires b.LoopBlock? && b.body != [] && b.reg < 4
    ensures BareEntries(b, i) != [] && LabelsOf(BareEntries(b, i)) == multiset{LoopStart(i)}
  {
    var p := LoopParts(b, i);
    assert BareEntries(b, i) == p[0] + p[1] + p[2] + p[3] + p[4];
    PartLabels(b, i);
    hide *;
    LabelsOfConcat(p[0] + p[1] + p[2] + p[3], p[4]);
    LabelsOfConcat(p[0] + p[1] + p[2], p[3]);
    LabelsOfConcat(p[0] + p[1], p[2]);
    LabelsOfConcat(p[0], p[1]);
  }

  lemma PartLabels(b: Block, i: nat)
    requires b.LoopBlock? && b.body != [] && b.reg < 4
    ensures var p := LoopParts(b, i);
            && |p| == 5 && p[1] != []
            && LabelsOf(p[0]) == multiset{} && LabelsOf(p[1]) == multiset{} && LabelsOf(p[2]) == multiset{LoopStart(i)}
            && LabelsOf(p[3]) == multiset{} && LabelsOf(p[4]) == multiset{}
  {
    var p := LoopParts(b, i);
    StraightLabels(b.before);
    StraightLabels(b.body);
    StraightLabels(b.after);
    WithLabelsLabels([LoopStart(i)], Straight(b.body));
    LabelsOfOne(p[1][0]);
    LabelsOfOne(p[3][0]);
    hide LabelsOf, Straight, WithLabels, Encode;
  }

  lemma RetryLabels(b: Block, i: nat)
    requires b.RetryBlock? && b.reg < 4
    ensures LabelsOf(BareEntries(b, i)) == multiset{LoopStart(i), LoopDone(i)}
  {
    var es := BareEntries(b, i);
    assert es == [es[0]] + [es[1]] + [es[2]] + [es[3]] + [es[4]];
    LabelsOfConcat([es[0]] + [es[1]] + [es[2]] + [es[3]], [es[4]]);
    LabelsOfConcat([es[0]] + [es[1]] + [es[2]], [es[3]]);
    LabelsOfConcat([es[0]] + [es[1]], [es[2]]);
    LabelsOfConcat([es[0]], [es[1]]);
    LabelsOfOne(es[0]);
    LabelsOfOne(es[1]);
    LabelsOfOne(es[2]);
    LabelsOfOne(es[3]);
    LabelsOfOne(es[4]);
  }

  lemma BlockLabels(bs: seq<Block>, marks: set<nat>, i: nat)
    requires i < |bs| && GoodBlocks(bs)
    ensures Once(LabelsOf(BlockEntries(bs, marks, i)))
    ensures forall l :: l in LabelsOf(BlockEntries(bs, marks, i)) ==> Owned(l, i)
  {
    assert GoodBlock(bs[i], i, |bs|);
    BareLabels(bs[i], i);
    WithLabelsLabels(if i in marks then [BlockStart(i)] else [], BareEntries(bs[i], i));
    hide LabelsOf, BareEntries, WithLabels;
  }

  lemma OnceTogether(a: multiset<Label>, b: multiset<Label>, i: nat)
    requires Once(a) && OwnedBelow(a, i) && Once(b) && forall l :: l in b ==> Owned(l, i)
    ensures Once(a + b) && OwnedBelow(a + b, i + 1)
  {
    forall l | l in a + b ensures (a + b)[l] == 1 {
      if l in a {
        assert l !in b;
      }
    }
  }

  lemma {:induction false} ListingLabels(bs: seq<Block>, marks: set<nat>, n: nat)
    requires n <= |bs| && GoodBlocks(bs)
    ensures Once(LabelsOf(ListingTo(bs, marks, n))) && OwnedBelow(LabelsOf(ListingTo(bs, marks, n)), n)
  {
    hide *;
    if n == 0 {
      NoLabels(bs, marks);
    } else {
      UnfoldListing(bs, marks, n);
      ListingLabels(bs, marks, n - 1);
      BlockLabels(bs, marks, n - 1);
      LabelsOfConcat(ListingTo(bs, marks, n - 1), BlockEntries(bs, marks, n - 1));
      OnceTogether(LabelsOf(ListingTo(bs, marks, n - 1)), LabelsOf(BlockEntries(bs, marks, n - 1)), n - 1);
    }
  }

  lemma NoLabels(bs: seq<Block>, marks: set<nat>)
    requires GoodBlocks(bs)
    ensures Once(LabelsOf(ListingTo(bs, marks, 0))) && OwnedBelow(LabelsOf(ListingTo(bs, marks, 0)), 0)
  {
    hide BlockEntries, GoodBlocks;
  }

  // ------------------------------------------------------------ the whole listing

  function SubEntries(sub: seq<Word>): seq<Entry> {
    WithLabels([SubStart], Straight(sub)) + [Entry([], Fixed(Encode(Ret)))]
  }

  function Listing(bs: seq<Block>, marks: set<nat>, sub: seq<Word>): seq<Entry> {
    ListingTo(bs, marks, |bs|) + [Entry([], Fixed(Encode(Halt)))] + (if sub == [] then [] else SubEntries(sub))
  }

  predicate HasCall(bs: seq<Block>) {
    exists i :: 0 <= i < |bs| && bs[i].CallBlock?
  }

  function LayoutOf(bs: seq<Block>, sub: seq<Word>): Layout {
    Layout(Items(bs), Leaves(sub), sub != [])
  }

  predicate GoodProgram(bs: seq<Block>, marks: set<nat>, sub: seq<Word>) {
    && GoodBlocks(bs) && Plain(sub) && (HasCall(bs) ==> sub != [])
    && (forall i :: 0 <= i < |bs| && bs[i].BranchBlock? ==> bs[i].target in marks)
    && Address(bs, |bs|) + |sub| + 2 <= PROGRAM_WORD_LIMIT
  }

  /** No label is defined twice, so the assembler never refuses the listing. */
  lemma ListingUnique(bs: seq<Block>, marks: set<nat>, sub: seq<Word>)
    requires GoodBlocks(bs)
    ensures Once(LabelsOf(Listing(bs, marks, sub)))
  {
    var main, halt := ListingTo(bs, marks, |bs|), [Entry([], Fixed(Encode(Halt)))];
    ListingLabels(bs, marks, |bs|);
    LabelsOfConcat(main, halt);
    LabelsOfOne(halt[0]);
    if sub == [] {
      assert Listing(bs, marks, sub) == main + halt;
    } else {
      LabelsOfConcat(main + halt, SubEntries(sub));
      SubLabels(sub);
    }
    hide LabelsOf, ListingTo;
  }

  lemma SubLabels(sub: seq<Word>)
    requires sub != []
    ensures LabelsOf(SubEntries(sub)) == multiset{SubStart}
  {
    var ret := [Entry([], Fixed(Encode(Ret)))];
    LabelsOfConcat(WithLabels([SubStart], Straight(sub)), ret);
    StraightLabels(sub);
    WithLabelsLabels([SubStart], Straight(sub));
    LabelsOfOne(ret[0]);
  }

  // ------------------------------------------------------------ placement

  /** The words are the listing with its labels looked up. */
  predicate AssembledAs(words: Program, table: Table, out: seq<Entry>) {
    |words| == |out| <= PROGRAM_WORD_LIMIT && forall k :: 0 <= k < |out| ==> EntryAt(words, table, out, k)
  }

  predicate EntryAt(words: Program, table: Table, out: seq<Entry>, k: nat)
    requires k < |out|
  {
    Names(table, out[k].labels, k) && Fetch(words, k) == Resolve(out[k].code, table)
  }

  /** A stretch of the listing at its address. */
  predicate StretchAt(words: Program, table: Table, es: seq<Entry>, a: nat) {
    forall k :: 0 <= k < |es| ==> EntryLies(words, table, es, k, a)
  }

  predicate EntryLies(words: Program, table: Table, es: seq<Entry>, k: nat, a: nat)
    requires k < |es|
  {
    Names(table, es[k].labels, a + k) && Fetch(words, a + k) == Resolve(es[k].code, table)
  }

  lemma BlockLies(bs: seq<Block>, marks: set<nat>, sub: seq<Word>, words: Program, table: Table, i: nat)
    requires GoodBlocks(bs) && i < |bs| && AssembledAs(words, table, Listing(bs, marks, sub))
    ensures StretchAt(words, table, BlockEntries(bs, marks, i), Address(bs, i))
    ensures |BlockEntries(bs, marks, i)| == Size(bs[i])
  {
    var es, out := BlockEntries(bs, marks, i), Listing(bs, marks, sub);
    BlockSize(bs, i);
    ListingLength(bs, marks, |bs|);
    hide BlockEntries, GoodBlocks, Size, Resolve;
    forall k | 0 <= k < |es| ensures EntryLies(words, table, es, k, Address(bs, i)) {
      ListingAt(bs, marks, i, k, |bs|);
      assert EntryAt(words, table, out, Address(bs, i) + k);
      assert out[Address(bs, i) + k] == es[k];
    }
  }

  /** The bare entries of a block, and its own label. */
  lemma BareLies(bs: seq<Block>, marks: set<nat>, sub: seq<Word>, words: Program, table: Table, i: nat)
    requires GoodBlocks(bs) && i < |bs| && AssembledAs(words, table, Listing(bs, marks, sub))
    ensures (bs[i].LoopBlock? || bs[i].RetryBlock?) ==> bs[i].reg < 4
    ensures StretchAt(words, table, BareEntries(bs[i], i), Address(bs, i))
    ensures i in marks ==> Lookup(table, BlockStart(i)) == Address(bs, i)
  {
    assert GoodBlock(bs[i], i, |bs|);
    BlockLies(bs, marks, sub, words, table, i);
    BareLabels(bs[i], i);
    var ls := if i in marks then [BlockStart(i)] else [];
    assert BlockEntries(bs, marks, i) == WithLabels(ls, BareEntries(bs[i], i));
    hide *;
    LabelsLie(words, table, ls, BareEntries(bs[i], i), Address(bs, i));
    assert i in marks ==> BlockStart(i) in ls;
  }

  /** Labels put on the first entry of a stretch stand for its address. */
  lemma LabelsLie(words: Program, table: Table, ls: seq<Label>, bare: seq<Entry>, a: nat)
    requires bare != [] && StretchAt(words, table, WithLabels(ls, bare), a)
    ensures StretchAt(words, table, bare, a)
    ensures forall l :: l in ls ==> Lookup(table, l) == a
  {
    var es := WithLabels(ls, bare);
    hide Resolve;
    forall k | 0 <= k < |bare| ensures EntryLies(words, table, bare, k, a) {
      assert EntryLies(words, table, es, k, a);
      assert es[k].code == bare[k].code && forall l :: l in bare[k].labels ==> l in es[k].labels;
    }
    assert EntryLies(words, table, es, 0, a);
    assert forall l :: l in ls ==> l in es[0].labels;
  }

  /** Fixed words of a stretch. */
  lemma FixedRun(words: Program, table: Table, es: seq<Entry>, a: nat, from: nat, ws: seq<Word>)
    requires StretchAt(words, table, es, a) && FixedFrom(es, from, ws)
    ensures WordsFrom(words, a + from, ws)
  {
    forall k | 0 <= k < |ws| ensures Fetch(words, a + from + k) == ws[k] {
      assert EntryLies(words, table, es, from + k, a);
    }
  }

  /** The entries from `from` on are these words. */
  predicate FixedFrom(es: seq<Entry>, from: nat, ws: seq<Word>) {
    from + |ws| <= |es| && forall k :: 0 <= k < |ws| ==> es[from + k].code == Fixed(ws[k])
  }

  predicate WordsFrom(words: Program, a: nat, ws: seq<Word>) {
    forall k :: 0 <= k < |ws| ==> Fetch(words, a + k) == ws[k]
  }

  lemma WordFrom(words: Program, a: nat, ws: seq<Word>, k: nat)
    requires WordsFrom(words, a, ws) && k < |ws|
    ensures Fetch(words, a + k) == ws[k]
  {
  }

  lemma {:induction false} LeavesPlaced(words: Program, ws: seq<Word>, base: nat, cont: nat, brk: nat, sub: nat)
    requires WordsFrom(words, base, ws)
    ensures Placed(words, Leaves(ws), base, cont, brk, sub)
  {
    LeavesAt(ws);
    forall i | 0 <= i < |Leaves(ws)| ensures PlacedAt(words, Leaves(ws), i, base, cont, brk, sub) {
      LeavesStart(ws, i);
      assert Fetch(words, base + i) == ws[i];
    }
    assert Placed(words, Leaves(ws), base, cont, brk, sub);
  }

  lemma LeavesWellFormed(ws: seq<Word>, live: set<nat>, inLoop: bool, calls: bool, kept: set<nat>)
    requires Plain(ws) && forall k :: 0 <= k < |ws| ==> Keeps(ws[k], live)
    ensures WellFormed(Leaves(ws), live, inLoop, calls, kept)
  {
    LeavesAt(ws);
    forall i | 0 <= i < |Leaves(ws)| ensures WellFormedAt(Leaves(ws), i, live, inLoop, calls, kept) {
      DefinedIsLeaf(ws[i]);
    }
  }

  lemma DefinedIsLeaf(w: Word)
    requires DefinedLeaf(w)
    ensures LeafWord(w) && Opcode(w) < 21
  {
  }

  lemma AddressFits(bs: seq<Block>, marks: set<nat>, sub: seq<Word>, i: nat)
    requires GoodProgram(bs, marks, sub) && i <= |bs|
    ensures Address(bs, i) <= Address(bs, |bs|) <= 254
  {
    AddressMono(bs, i, |bs|);
  }

  lemma {:induction false} AddressMono(bs: seq<Block>, i: nat, j: nat)
    requires i <= j <= |bs|
    ensures Address(bs, i) <= Address(bs, j)
    decreases j
  {
    if i < j {
      AddressMono(bs, i, j - 1);
    }
  }

  /** Addresses of a loop block's parts. */
  lemma LoopBlockLies(b: Block, i: nat, words: Program, table: Table, a: nat)
    requires b.LoopBlock? && b.reg < 4 && b.count < 256 && b.body != [] && StretchAt(words, table, BareEntries(b, i), a)
    requires a + Size(b) < 511
    ensures var s := a + |b.before|;
            && WordsFrom(words, a, b.before)
            && Decode(Fetch(words, s)) == Ldi(b.reg, b.count)
            && WordsFrom(words, s + 1, b.body)
            && Decode(Fetch(words, s + 1 + |b.body|)) == Instr.Loop(s + 1, b.reg)
            && WordsFrom(words, s + 2 + |b.body|, b.after)
  {
    hide *;
    LoopBlockSize(b);
    var es, s := BareEntries(b, i), |b.before|;
    LoopEntries(b, i);
    FixedRun(words, table, es, a, 0, b.before);
    FixedRun(words, table, es, a, s + 1, b.body);
    FixedRun(words, table, es, a, s + 2 + |b.body|, b.after);
    LoopEnds(b, i, words, table, a, es);
  }

  /** The LDI and the LOOP of a loop block. */
  lemma LoopEnds(b: Block, i: nat, words: Program, table: Table, a: nat, es: seq<Entry>)
    requires b.LoopBlock? && b.reg < 4 && b.count < 256 && StretchAt(words, table, es, a) && a + Size(b) < 511
    requires var s := |b.before|;
             && |es| == Size(b) && es[s].code == Fixed(Encode(Ldi(b.reg, b.count))) && LoopStart(i) in es[s + 1].labels
             && es[s + 1 + |b.body|].code == LoopTo(LoopStart(i), b.reg)
    ensures var s := a + |b.before|;
            && Decode(Fetch(words, s)) == Ldi(b.reg, b.count)
            && Decode(Fetch(words, s + 1 + |b.body|)) == Instr.Loop(s + 1, b.reg)
  {
    hide Decode, Encode;
    var s := |b.before|;
    assert EntryLies(words, table, es, s, a) && EntryLies(words, table, es, s + 1, a)
           && EntryLies(words, table, es, s + 1 + |b.body|, a);
    DecodeEncode(Ldi(b.reg, b.count));
    DecodeEncode(Instr.Loop(a + s + 1, b.reg));
  }

  /** Entry `k` of the five parts in a row. */
  lemma FiveParts(p0: seq<Entry>, p1: seq<Entry>, p2: seq<Entry>, p3: seq<Entry>, p4: seq<Entry>, k: nat)
    requires |p1| == 1 && |p3| == 1 && k < |p0| + |p2| + |p4| + 2
    ensures (p0 + p1 + p2 + p3 + p4)[k] ==
            if k < |p0| then p0[k] else if k == |p0| then p1[0] else if k < |p0| + 1 + |p2| then p2[k - |p0| - 1]
            else if k == |p0| + 1 + |p2| then p3[0] else p4[k - |p0| - |p2| - 2]
  {
  }

  lemma LoopEntry(b: Block, i: nat, k: nat)
    requires b.LoopBlock? && b.reg < 4 && b.body != [] && k < Size(b)
    ensures var s, n, es := |b.before|, |b.body|, BareEntries(b, i);
            && |es| == Size(b)
            && es[k].code == (if k < s then Fixed(b.before[k]) else if k == s then Fixed(Encode(Ldi(b.reg, b.count)))
                              else if k < s + 1 + n then Fixed(b.body[k - s - 1])
                              else if k == s + 1 + n then LoopTo(LoopStart(i), b.reg)
                                else Fixed(b.after[k - s - n - 2]))
            && (k == s + 1 ==> LoopStart(i) in es[k].labels)
  {
    var p := LoopParts(b, i);
    assert BareEntries(b, i) == p[0] + p[1] + p[2] + p[3] + p[4];
    hide BareEntries, Encode;
    FiveParts(p[0], p[1], p[2], p[3], p[4], k);
  }

  lemma LoopBlockSize(b: Block)
    requires b.LoopBlock?
    ensures Size(b) == |b.before| + |b.body| + |b.after| + 2
  {
  }

  lemma LoopEntries(b: Block, i: nat)
    requires b.LoopBlock? && b.reg < 4 && b.body != []
    ensures var es, s := BareEntries(b, i), |b.before|;
            && |es| == Size(b)
            && FixedFrom(es, 0, b.before)
            && es[s].code == Fixed(Encode(Ldi(b.reg, b.count)))
            && FixedFrom(es, s + 1, b.body)
            && LoopStart(i) in es[s + 1].labels
            && es[s + 1 + |b.body|].code == LoopTo(LoopStart(i), b.reg)
            && FixedFrom(es, s + 2 + |b.body|, b.after)
  {
    hide *;
    LoopBlockSize(b);
    LoopEntry(b, i, |b.before|);
    LoopEntry(b, i, |b.before| + 1);
    LoopEntry(b, i, |b.before| + 1 + |b.body|);
    LoopBefore(b, i);
    LoopInner(b, i);
    LoopAfter(b, i);
  }

  lemma LoopBeforeAt(b: Block, i: nat, k: nat)
    requires b.LoopBlock? && b.reg < 4 && b.body != [] && k < |b.before|
    ensures var es, from := BareEntries(b, i), 0;
            from + |b.before| <= |es| && es[from + k].code == Fixed(b.before[k])
  {
    hide BareEntries, Encode;
    LoopEntry(b, i, k);
  }

  lemma LoopBefore(b: Block, i: nat)
    requires b.LoopBlock? && b.reg < 4 && b.body != []
    ensures FixedFrom(BareEntries(b, i), 0, b.before)
  {
    hide *;
    LoopRoom(b, i);
    forall k | 0 <= k < |b.before| ensures BareEntries(b, i)[0 + k].code == Fixed(b.before[k]) {
      LoopBeforeAt(b, i, k);
    }
    FixedIs(BareEntries(b, i), 0, b.before);
  }

  lemma LoopInnerAt(b: Block, i: nat, k: nat)
    requires b.LoopBlock? && b.reg < 4 && b.body != [] && k < |b.body|
    ensures var es, from := BareEntries(b, i), |b.before| + 1;
            from + |b.body| <= |es| && es[from + k].code == Fixed(b.body[k])
  {
    hide BareEntries, Encode;
    LoopEntry(b, i, |b.before| + 1 + k);
  }

  lemma LoopInner(b: Block, i: nat)
    requires b.LoopBlock? && b.reg < 4 && b.body != []
    ensures FixedFrom(BareEntries(b, i), |b.before| + 1, b.body)
  {
    hide *;
    LoopRoom(b, i);
    forall k | 0 <= k < |b.body| ensures BareEntries(b, i)[|b.before| + 1 + k].code == Fixed(b.body[k]) {
      LoopInnerAt(b, i, k);
    }
    FixedIs(BareEntries(b, i), |b.before| + 1, b.body);
  }

  lemma LoopAfterAt(b: Block, i: nat, k: nat)
    requires b.LoopBlock? && b.reg < 4 && b.body != [] && k < |b.after|
    ensures var es, from := BareEntries(b, i), |b.before| + 2 + |b.body|;
            from + |b.after| <= |es| && es[from + k].code == Fixed(b.after[k])
  {
    hide BareEntries, Encode;
    LoopEntry(b, i, |b.before| + 2 + |b.body| + k);
  }

  lemma LoopAfter(b: Block, i: nat)
    requires b.LoopBlock? && b.reg < 4 && b.body != []
    ensures FixedFrom(BareEntries(b, i), |b.before| + 2 + |b.body|, b.after)
  {
    hide *;
    LoopRoom(b, i);
    forall k | 0 <= k < |b.after| ensures BareEntries(b, i)[|b.before| + 2 + |b.body| + k].code == Fixed(b.after[k]) {
      LoopAfterAt(b, i, k);
    }
    FixedIs(BareEntries(b, i), |b.before| + 2 + |b.body|, b.after);
  }

  lemma LoopRoom(b: Block, i: nat)
    requires b.LoopBlock? && b.reg < 4 && b.body != []
    ensures |BareEntries(b, i)| == |b.before| + |b.body| + |b.after| + 2
  {
    LoopEntry(b, i, 0);
    hide BareEntries, Encode;
  }

  lemma FixedIs(es: seq<Entry>, from: nat, ws: seq<Word>)
    requires from + |ws| <= |es| && forall k :: 0 <= k < |ws| ==> es[from + k].code == Fixed(ws[k])
    ensures FixedFrom(es, from, ws)
  {
  }

  lemma RetryBlockLies(b: Block, i: nat, words: Program, table: Table, a: nat)
    requires b.RetryBlock? && b.reg < 4 && b.count < 256 && StretchAt(words, table, BareEntries(b, i), a)
    requires a + 5 < 511
    ensures Decode(Fetch(words, a)) == Ldi(b.reg, b.count)
    ensures Fetch(words, a + 1) == b.wait && Decode(Fetch(words, a + 2)) == Instr.Branch(COND_BNE, a + 4)
    ensures Decode(Fetch(words, a + 3)) == Instr.Loop(a + 1, b.reg) && Fetch(words, a + 4) == b.last
  {
    var es := BareEntries(b, i);
    hide Decode, Encode;
    assert EntryLies(words, table, es, 0, a) && EntryLies(words, table, es, 1, a) && EntryLies(words, table, es, 2, a)
           && EntryLies(words, table, es, 3, a) && EntryLies(words, table, es, 4, a);
    assert LoopStart(i) in es[1].labels && LoopDone(i) in es[4].labels;
    DecodeEncode(Ldi(b.reg, b.count));
    DecodeEncode(Instr.Branch(COND_BNE, a + 4));
    DecodeEncode(Instr.Loop(a + 1, b.reg));
  }

  /** The retry loop's body: the WAIT, and a branch out of the loop. */
  lemma RetryBodyPlaced(words: Program, wait: Word, a: nat, sub: nat)
    requires Fetch(words, a) == wait && Decode(Fetch(words, a + 1)) == Instr.Branch(COND_BNE, a + 3)
    ensures Placed(words, [Item.Branch([wait], COND_BNE, Break)], a, a + 2, a + 3, sub)
  {
    var body := [Item.Branch([wait], COND_BNE, Break)];
    assert PlacedAt(words, body, 0, a, a + 2, a + 3, sub);
    assert Placed(words, body, a, a + 2, a + 3, sub);
  }

  lemma RetryBodyWellFormed(wait: Word, live: set<nat>, calls: bool)
    requires DefinedLeaf(wait) && Decode(wait).Wait?
    ensures WellFormed([Item.Branch([wait], COND_BNE, Break)], live, true, calls, {})
  {
    var body := [Item.Branch([wait], COND_BNE, Break)];
    DefinedIsLeaf(wait);
    assert WellFormedAt(body, 0, live, true, calls, {});
  }

  /** Every item of block `i` is where the structure says. */
  lemma ItemPlaced(bs: seq<Block>, marks: set<nat>, sub: seq<Word>, words: Program, table: Table, i: nat, m: nat,
                   end: nat, subAt: nat)
    requires GoodProgram(bs, marks, sub) && i < |bs| && m < ItemCount(bs[i])
    requires AssembledAs(words, table, Listing(bs, marks, sub))
    requires HasCall(bs) ==> Lookup(table, SubStart) == subAt < 512
    ensures First(bs, i) + m < |Items(bs)|
    ensures PlacedAt(words, Items(bs), First(bs, i) + m, 0, end, end, subAt)
  {
    hide *;
    HereHolds(bs, marks, sub, words, table, i, m);
    HereWithin(bs, words, table, i, m);
    OnlyItem(bs, i, m);
    match bs[i]
    case LeafBlock(w) => LeafLies(bs, words, table, i, m, end, subAt);
    case BranchBlock(cond, target) =>
      TargetLies(bs, marks, sub, words, table, i);
      BranchLies(bs, words, table, i, end, subAt);
    case CallBlock => CallLies(bs, words, table, i, end, subAt);
    case LoopBlock(_, _, _, _, _) => LoopLies(bs, words, table, i, m, end, subAt);
    case RetryBlock(_, _, _, _) => RetryLies(bs, words, table, i, m, end, subAt);
  }

  lemma HereWithin(bs: seq<Block>, words: Program, table: Table, i: nat, m: nat)
    requires Here(bs, words, table, i, m)
    ensures First(bs, i) + m < |Items(bs)|
  {
  }

  lemma OnlyItem(bs: seq<Block>, i: nat, m: nat)
    requires i < |bs| && m < ItemCount(bs[i])
    ensures bs[i].BranchBlock? || bs[i].CallBlock? ==> m == 0
    ensures bs[i].CallBlock? ==> HasCall(bs)
  {
  }

  lemma HereHolds(bs: seq<Block>, marks: set<nat>, sub: seq<Word>, words: Program, table: Table, i: nat, m: nat)
    requires GoodProgram(bs, marks, sub) && i < |bs| && m < ItemCount(bs[i])
    requires AssembledAs(words, table, Listing(bs, marks, sub))
    ensures Here(bs, words, table, i, m)
  {
    hide *;
    GoodHere(bs, marks, sub, i);
    BlockStarts(bs, i, m);
    BareLies(bs, marks, sub, words, table, i);
    HereIs(bs, words, table, i, m);
  }

  lemma GoodHere(bs: seq<Block>, marks: set<nat>, sub: seq<Word>, i: nat)
    requires GoodProgram(bs, marks, sub) && i < |bs|
    ensures GoodBlocks(bs) && GoodBlock(bs[i], i, |bs|) && Address(bs, i) + Size(bs[i]) <= 254
  {
    AddressFits(bs, marks, sub, i + 1);
    hide GoodBlock;
  }

  lemma HereIs(bs: seq<Block>, words: Program, table: Table, i: nat, m: nat)
    requires i < |bs| && GoodBlock(bs[i], i, |bs|) && m < ItemCount(bs[i]) && First(bs, i) + m < |Items(bs)|
    requires Start(Items(bs), First(bs, i) + m) == Address(bs, i) + Start(BlockItems(bs, i), m)
    requires Items(bs)[First(bs, i) + m] == BlockItems(bs, i)[m]
    requires StretchAt(words, table, BareEntries(bs[i], i), Address(bs, i)) && Address(bs, i) + Size(bs[i]) <= 254
    ensures Here(bs, words, table, i, m)
  {
  }

  lemma TargetLies(bs: seq<Block>, marks: set<nat>, sub: seq<Word>, words: Program, table: Table, i: nat)
    requires GoodProgram(bs, marks, sub) && i < |bs| && bs[i].BranchBlock?
    requires AssembledAs(words, table, Listing(bs, marks, sub))
    ensures var t := bs[i].target;
            && t < |bs| && First(bs, t) <= |Items(bs)| && Start(Items(bs), First(bs, t)) == Address(bs, t) <= 254
            && Lookup(table, BlockStart(t)) == Address(bs, t)
  {
    hide Listing, AssembledAs, Items, StretchAt, BlockItems, BareEntries;
    assert GoodBlock(bs[i], i, |bs|);
    var t := bs[i].target;
    BlockStarts(bs, t, 0);
    BareLies(bs, marks, sub, words, table, t);
    AddressFits(bs, marks, sub, t);
  }

  /** What `ItemPlaced` knows of block `i`. */
  ghost predicate Here(bs: seq<Block>, words: Program, table: Table, i: nat, m: nat)
  {
    && i < |bs| && GoodBlock(bs[i], i, |bs|) && m < ItemCount(bs[i]) && First(bs, i) + m < |Items(bs)|
    && Start(Items(bs), First(bs, i) + m) == Address(bs, i) + Start(BlockItems(bs, i), m)
    && Items(bs)[First(bs, i) + m] == BlockItems(bs, i)[m]
    && StretchAt(words, table, BareEntries(bs[i], i), Address(bs, i))
    && Address(bs, i) + Size(bs[i]) <= 254
  }

  lemma LeafLies(bs: seq<Block>, words: Program, table: Table, i: nat, m: nat, end: nat, subAt: nat)
    requires Here(bs, words, table, i, m) && bs[i].LeafBlock?
    ensures PlacedAt(words, Items(bs), First(bs, i) + m, 0, end, end, subAt)
  {
    assert EntryLies(words, table, BareEntries(bs[i], i), 0, Address(bs, i));
    hide Items, First;
  }

  lemma CallLies(bs: seq<Block>, words: Program, table: Table, i: nat, end: nat, subAt: nat)
    requires Here(bs, words, table, i, 0) && bs[i].CallBlock? && Lookup(table, SubStart) == subAt < 512
    ensures PlacedAt(words, Items(bs), First(bs, i), 0, end, end, subAt)
  {
    assert EntryLies(words, table, BareEntries(bs[i], i), 0, Address(bs, i));
    DecodeEncode(Instr.Branch(COND_CALL, subAt));
    hide Items, First, Decode, Encode;
  }

  lemma BranchLies(bs: seq<Block>, words: Program, table: Table, i: nat, end: nat, subAt: nat)
    requires Here(bs, words, table, i, 0) && bs[i].BranchBlock?
    requires var t := bs[i].target;
             && First(bs, t) <= |Items(bs)| && Start(Items(bs), First(bs, t)) == Address(bs, t) <= 254
             && Lookup(table, BlockStart(t)) == Address(bs, t)
    ensures PlacedAt(words, Items(bs), First(bs, i), 0, end, end, subAt)
  {
    var t := bs[i].target;
    assert EntryLies(words, table, BareEntries(bs[i], i), 0, Address(bs, i));
    DecodeEncode(Instr.Branch(bs[i].cond, Address(bs, t)));
    hide Items, First, Decode, Encode;
  }

  /** A leaf, and a counted loop, at a known place. */
  lemma LeafAt(words: Program, items: seq<Item>, x: nat, w: Word, a: nat, end: nat, subAt: nat)
    requires x < |items| && items[x] == Leaf(w) && Start(items, x) == a && Fetch(words, a) == w
    ensures PlacedAt(words, items, x, 0, end, end, subAt)
  {
  }

  lemma LoopAt(words: Program, items: seq<Item>, x: nat, reg: nat, count: nat, body: seq<Item>, n: nat, a: nat,
               end: nat, subAt: nat)
    requires x < |items| && items[x] == Item.Loop(reg, count, body) && Start(items, x) == a && SeqSize(body) == n
    requires Decode(Fetch(words, a)) == Ldi(reg, count) && Placed(words, body, a + 1, a + 1 + n, a + 2 + n, subAt)
    requires Decode(Fetch(words, a + 1 + n)) == Instr.Loop(a + 1, reg)
    ensures PlacedAt(words, items, x, 0, end, end, subAt)
  {
    hide Placed, Decode;
  }

  lemma LoopLies(bs: seq<Block>, words: Program, table: Table, i: nat, m: nat, end: nat, subAt: nat)
    requires Here(bs, words, table, i, m) && bs[i].LoopBlock?
    ensures PlacedAt(words, Items(bs), First(bs, i) + m, 0, end, end, subAt)
  {
    hide *;
    HereLoop(bs, words, table, i, m);
    LoopPartLies(bs[i], words, table, i, Address(bs, i), Items(bs), First(bs, i) + m, m, end, subAt);
  }

  lemma HereLoop(bs: seq<Block>, words: Program, table: Table, i: nat, m: nat)
    requires Here(bs, words, table, i, m) && bs[i].LoopBlock?
    ensures i < |bs| && First(bs, i) + m < |Items(bs)|
    ensures var b, a, items, x := bs[i], Address(bs, i), Items(bs), First(bs, i) + m;
            && b.reg < 4 && b.count < 256 && b.body != [] && m < |LoopItems(b)| && x < |items|
            && items[x] == LoopItems(b)[m]
            && Start(items, x) == a + Start(LoopItems(b), m) && StretchAt(words, table, BareEntries(b, i), a)
            && a + Size(b) < 511
  {
    hide LoopItems, Start, Items, StretchAt, BareEntries, First, Plain, Protected, Size, Address;
  }

  lemma LoopPartLies(b: Block, words: Program, table: Table, i: nat, a: nat, items: seq<Item>, x: nat, m: nat,
                     end: nat, subAt: nat)
    requires b.LoopBlock? && b.reg < 4 && b.count < 256 && b.body != [] && m < |LoopItems(b)| && x < |items|
    requires items[x] == LoopItems(b)[m] && Start(items, x) == a + Start(LoopItems(b), m)
    requires StretchAt(words, table, BareEntries(b, i), a) && a + Size(b) < 511
    ensures PlacedAt(words, items, x, 0, end, end, subAt)
  {
    hide *;
    var s, n := |b.before|, |b.body|;
    LoopBlockLies(b, i, words, table, a);
    LoopItemsStart(b, m);
    LoopItemAt(b, m);
    if m < s {
      WordFrom(words, a, b.before, m);
      LeafAt(words, items, x, b.before[m], a + m, end, subAt);
    } else if m == s {
      LoopBodyLies(words, b, a + s, items, x, end, subAt);
    } else {
      WordFrom(words, a + s + 2 + n, b.after, m - s - 1);
      LeafAt(words, items, x, b.after[m - s - 1], a + s + 2 + n + (m - s - 1), end, subAt);
    }
  }

  lemma LoopBodyLies(words: Program, b: Block, a: nat, items: seq<Item>, x: nat, end: nat, subAt: nat)
    requires b.LoopBlock? && x < |items| && items[x] == Item.Loop(b.reg, b.count, Leaves(b.body))
    requires Start(items, x) == a
    requires Decode(Fetch(words, a)) == Ldi(b.reg, b.count)
    requires WordsFrom(words, a + 1, b.body)
    requires Decode(Fetch(words, a + 1 + |b.body|)) == Instr.Loop(a + 1, b.reg)
    ensures PlacedAt(words, items, x, 0, end, end, subAt)
  {
    hide *;
    var n := |b.body|;
    LoopSize(b.reg, b.count, b.body);
    LeavesPlaced(words, b.body, a + 1, a + 1 + n, a + 2 + n, subAt);
    LoopAt(words, items, x, b.reg, b.count, Leaves(b.body), n, a, end, subAt);
  }

  lemma LoopItemsStart(b: Block, m: nat)
    requires b.LoopBlock? && m <= |LoopItems(b)|
    ensures Start(LoopItems(b), m) == if m <= |b.before| then m else |b.before| + |b.body| + 2 + (m - |b.before| - 1)
  {
    LoopBlockStart(b.before, Item.Loop(b.reg, b.count, Leaves(b.body)), b.after, m);
    LoopSize(b.reg, b.count, b.body);
  }

  lemma RetryLies(bs: seq<Block>, words: Program, table: Table, i: nat, m: nat, end: nat, subAt: nat)
    requires Here(bs, words, table, i, m) && bs[i].RetryBlock?
    ensures PlacedAt(words, Items(bs), First(bs, i) + m, 0, end, end, subAt)
  {
    hide *;
    HereRetry(bs, words, table, i, m);
    RetryPartLies(bs[i], words, table, i, Address(bs, i), Items(bs), First(bs, i) + m, m, end, subAt);
  }

  lemma RetryPartLies(b: Block, words: Program, table: Table, i: nat, a: nat, items: seq<Item>, x: nat, m: nat,
                      end: nat, subAt: nat)
    requires b.RetryBlock? && b.reg < 4 && b.count < 256 && m < 2 && x < |items|
    requires StretchAt(words, table, BareEntries(b, i), a) && a + 5 < 511 && Start(items, x) == a + 4 * m
    requires items[x] == (if m == 0 then Item.Loop(b.reg, b.count, [Item.Branch([b.wait], COND_BNE, Break)])
             else Leaf(b.last))
    ensures PlacedAt(words, items, x, 0, end, end, subAt)
  {
    hide StretchAt, BareEntries, PlacedAt, Placed, Decode, Fetch, Start;
    RetryBlockLies(b, i, words, table, a);
    if m == 0 {
      RetryBodyPlaced(words, b.wait, a + 1, subAt);
      RetrySize(b.reg, b.count, b.wait);
      LoopAt(words, items, x, b.reg, b.count, [Item.Branch([b.wait], COND_BNE, Break)], 2, a, end, subAt);
    } else {
      LeafAt(words, items, x, b.last, a + 4, end, subAt);
    }
  }

  lemma HereRetry(bs: seq<Block>, words: Program, table: Table, i: nat, m: nat)
    requires Here(bs, words, table, i, m) && bs[i].RetryBlock?
    ensures i < |bs| && First(bs, i) + m < |Items(bs)|
    ensures var b, a, items, x := bs[i], Address(bs, i), Items(bs), First(bs, i) + m;
            && b.reg < 4 && b.count < 256 && m < 2 && StretchAt(words, table, BareEntries(b, i), a) && a + 5 < 511
            && Start(items, x) == a + 4 * m
            && items[x] == (if m == 0 then Item.Loop(b.reg, b.count, [Item.Branch([b.wait], COND_BNE, Break)])
               else Leaf(b.last))
  {
    var items := BlockItems(bs, i);
    RetrySize(bs[i].reg, bs[i].count, bs[i].wait);
    assert Start(items, 1) == Start(items, 0) + ItemSize(items[0]);
    hide Items, First, Decode, StretchAt, BareEntries, DefinedLeaf, Address;
  }

  /** And every item obeys the structure's rules. */
  lemma ItemWellFormed(bs: seq<Block>, i: nat, m: nat, calls: bool)
    requires GoodBlocks(bs) && i < |bs| && m < ItemCount(bs[i]) && (HasCall(bs) ==> calls)
    ensures First(bs, i) + m < |Items(bs)| && WellFormedAt(Items(bs), First(bs, i) + m, {}, false, calls, {})
  {
    hide *;
    match bs[i]
    case LeafBlock(_) => LeafBlockFine(bs, i, m, calls);
    case BranchBlock(_, _) =>
      OneItem(bs[i]);
      BranchFine(bs, i, calls);
    case CallBlock =>
      OneItem(bs[i]);
      CallFine(bs, i, calls);
    case LoopBlock(_, _, _, _, _) => LoopBlockFine(bs, i, m, calls);
    case RetryBlock(_, _, _, _) => RetryBlockFine(bs, i, m, calls);
  }

  lemma OneItem(b: Block)
    requires b.BranchBlock? || b.CallBlock?
    ensures ItemCount(b) == 1
  {
  }

  lemma LeafBlockFine(bs: seq<Block>, i: nat, m: nat, calls: bool)
    requires GoodBlocks(bs) && i < |bs| && bs[i].LeafBlock? && m < ItemCount(bs[i])
    ensures First(bs, i) + m < |Items(bs)| && WellFormedAt(Items(bs), First(bs, i) + m, {}, false, calls, {})
  {
    hide Items, First, DefinedLeaf, Start, WellFormedAt;
    assert GoodBlock(bs[i], i, |bs|);
    BlockStarts(bs, i, m);
    LeafFine(Items(bs), First(bs, i) + m, bs[i].word, calls);
  }

  lemma LoopBlockFine(bs: seq<Block>, i: nat, m: nat, calls: bool)
    requires GoodBlocks(bs) && i < |bs| && bs[i].LoopBlock? && m < ItemCount(bs[i])
    ensures First(bs, i) + m < |Items(bs)| && WellFormedAt(Items(bs), First(bs, i) + m, {}, false, calls, {})
  {
    hide *;
    GoodLoop(bs, i);
    BlockStarts(bs, i, m);
    LoopPartFine(bs[i], Items(bs), First(bs, i) + m, m, calls);
  }

  lemma GoodLoop(bs: seq<Block>, i: nat)
    requires GoodBlocks(bs) && i < |bs| && bs[i].LoopBlock?
    ensures var b := bs[i];
            && b.reg < 4 && 1 <= b.count < 256 && Plain(b.before) && Plain(b.body) && Protected(b.body, b.reg)
            && Plain(b.after)
            && BlockItems(bs, i) == LoopItems(b) && |LoopItems(b)| == ItemCount(b)
  {
    hide LoopItems, Plain, Protected;
    assert GoodBlock(bs[i], i, |bs|);
  }

  lemma RetryBlockFine(bs: seq<Block>, i: nat, m: nat, calls: bool)
    requires GoodBlocks(bs) && i < |bs| && bs[i].RetryBlock? && m < ItemCount(bs[i])
    ensures First(bs, i) + m < |Items(bs)| && WellFormedAt(Items(bs), First(bs, i) + m, {}, false, calls, {})
  {
    hide Items, First, DefinedLeaf, Start, WellFormedAt, Decode;
    assert GoodBlock(bs[i], i, |bs|);
    BlockStarts(bs, i, m);
    var b, x := bs[i], First(bs, i) + m;
    if m == 0 {
      RetryBodyWellFormed(b.wait, {b.reg}, calls);
      LoopFine(Items(bs), x, b.reg, b.count, [Item.Branch([b.wait], COND_BNE, Break)], calls);
    } else {
      LeafFine(Items(bs), x, b.last, calls);
    }
  }

  lemma BranchFine(bs: seq<Block>, i: nat, calls: bool)
    requires GoodBlocks(bs) && i < |bs| && bs[i].BranchBlock?
    ensures First(bs, i) < |Items(bs)| && WellFormedAt(Items(bs), First(bs, i), {}, false, calls, {})
  {
    hide Items, First, Start;
    assert GoodBlock(bs[i], i, |bs|);
    BlockStarts(bs, i, 0);
    var t := bs[i].target;
    FirstMono(bs, i + 1, t);
    FirstStep(bs, i);
    BlockStarts(bs, t, 0);
  }

  lemma CallFine(bs: seq<Block>, i: nat, calls: bool)
    requires GoodBlocks(bs) && i < |bs| && bs[i].CallBlock? && (HasCall(bs) ==> calls)
    ensures First(bs, i) < |Items(bs)| && WellFormedAt(Items(bs), First(bs, i), {}, false, calls, {})
  {
    hide Items, First, Start;
    BlockStarts(bs, i, 0);
    assert HasCall(bs);
  }

  lemma LoopPartFine(b: Block, items: seq<Item>, x: nat, m: nat, calls: bool)
    requires b.LoopBlock? && b.reg < 4 && 1 <= b.count < 256 && Plain(b.before) && Plain(b.body)
    requires Protected(b.body, b.reg) && Plain(b.after)
    requires m < |LoopItems(b)| && x < |items| && items[x] == LoopItems(b)[m]
    ensures WellFormedAt(items, x, {}, false, calls, {})
  {
    hide WellFormed, WellFormedAt, DefinedLeaf, LoopItems, Keeps;
    LoopItemAt(b, m);
    var s := |b.before|;
    if m < s {
      LeafFine(items, x, b.before[m], calls);
    } else if m == s {
      LeavesWellFormed(b.body, {b.reg}, true, calls, {});
      LoopFine(items, x, b.reg, b.count, Leaves(b.body), calls);
    } else {
      LeafFine(items, x, b.after[m - s - 1], calls);
    }
  }

  lemma LeafFine(items: seq<Item>, x: nat, w: Word, calls: bool)
    requires x < |items| && items[x] == Leaf(w) && DefinedLeaf(w)
    ensures WellFormedAt(items, x, {}, false, calls, {})
  {
    DefinedIsLeaf(w);
  }

  lemma LoopFine(items: seq<Item>, x: nat, reg: nat, count: nat, body: seq<Item>, calls: bool)
    requires x < |items| && items[x] == Item.Loop(reg, count, body) && reg < 4 && 1 <= count < 256
    requires WellFormed(body, {reg}, true, calls, {})
    ensures WellFormedAt(items, x, {}, false, calls, {})
  {
    assert {} + {reg} == {reg};
    hide WellFormed;
  }

  lemma {:induction false} FirstMono(bs: seq<Block>, i: nat, j: nat)
    requires i <= j <= |bs|
    ensures First(bs, i) <= First(bs, j)
    decreases j
  {
    if i < j {
      FirstMono(bs, i, j - 1);
    }
  }

  /** Every item belongs to a block. */
  lemma {:induction false} BlockOf(bs: seq<Block>, n: nat, x: nat) returns (i: nat, m: nat)
    requires n <= |bs| && x < First(bs, n)
    ensures i < n && m < ItemCount(bs[i]) && x == First(bs, i) + m
  {
    if x >= First(bs, n - 1) {
      i, m := n - 1, x - First(bs, n - 1);
    } else {
      i, m := BlockOf(bs, n - 1, x);
    }
  }

  // ------------------------------------------------------------ the whole program

  /** Assembled, the blocks are a laid-out program that obeys the rules. */
  lemma ListingLaid(bs: seq<Block>, marks: set<nat>, sub: seq<Word>, words: Program, table: Table)
    requires GoodProgram(bs, marks, sub) && AssembledAs(words, table, Listing(bs, marks, sub))
    ensures var l := LayoutOf(bs, sub);
            LayoutOk(l) && Laid(l, words) && LeafOnly(l.sub) && Length(l) == |words| && HaltAt(l) == Address(bs, |bs|)
  {
    hide *;
    GoodParts(bs, marks, sub);
    LayoutParts(bs, sub);
    var l := LayoutOf(bs, sub);
    SubLies(bs, marks, sub, words, table);
    SubFine(bs, marks, sub, words);
    ItemsObey(bs, sub != []);
    ItemsLie(bs, marks, sub, words, table, HaltAt(l), SubAt(l));
    Together(l, words);
  }

  lemma GoodParts(bs: seq<Block>, marks: set<nat>, sub: seq<Word>)
    requires GoodProgram(bs, marks, sub)
    ensures GoodBlocks(bs) && (HasCall(bs) ==> sub != []) && Address(bs, |bs|) + |sub| + 2 <= 256
  {
    hide GoodBlocks, Address;
  }

  lemma HaltAndRet()
    ensures Decode(Encode(Halt)) == Halt && Decode(Encode(Ret)) == Ret
  {
    DecodeEncode(Halt);
    DecodeEncode(Ret);
    hide Decode, Encode;
  }

  lemma LayoutParts(bs: seq<Block>, sub: seq<Word>)
    requires GoodBlocks(bs)
    ensures var l := LayoutOf(bs, sub);
            && l.items == Items(bs) && l.sub == Leaves(sub) && l.calls == (sub != [])
            && HaltAt(l) == Address(bs, |bs|) && SubAt(l) == Address(bs, |bs|) + 1 && RetAt(l) == SubAt(l) + |sub|
            && Length(l) == (if sub != [] then RetAt(l) + 1 else HaltAt(l) + 1)
  {
    StartsTo(bs, |bs|);
    LeavesStart(sub, |sub|);
    hide ItemsTo, Leaves, Start;
  }

  lemma NothingKept(ws: seq<Word>)
    ensures forall k :: 0 <= k < |ws| ==> Keeps(ws[k], {})
  {
  }

  lemma SubFine(bs: seq<Block>, marks: set<nat>, sub: seq<Word>, words: Program)
    requires GoodProgram(bs, marks, sub)
    requires sub != [] ==> forall k :: 0 <= k < |sub| ==> Fetch(words, Address(bs, |bs|) + 1 + k) == sub[k]
    ensures Address(bs, |bs|) + |sub| + 1 < 511 && GoodBlocks(bs) && (HasCall(bs) ==> sub != [])
    ensures WellFormed(Leaves(sub), {}, false, false, {}) && LeafOnly(Leaves(sub)) && (sub == [] ==> Leaves(sub) == [])
    ensures var a := Address(bs, |bs|) + 1; sub != [] ==> Placed(words, Leaves(sub), a, a + |sub|, a + |sub|, a)
  {
    hide WellFormed, Placed, GoodBlocks, DefinedLeaf, Keeps;
    var a := Address(bs, |bs|) + 1;
    LeavesAt(sub);
    NothingKept(sub);
    LeavesWellFormed(sub, {}, false, false, {});
    if sub != [] {
      LeavesPlaced(words, sub, a, a + |sub|, a + |sub|, a);
    }
  }

  lemma Together(l: Layout, words: Program)
    requires RetAt(l) < 511 && WellFormed(l.items, {}, false, l.calls, {}) && WellFormed(l.sub, {}, false, false, {})
    requires (!l.calls ==> l.sub == []) && LeafOnly(l.sub)
    requires Placed(words, l.items, 0, HaltAt(l), HaltAt(l), SubAt(l)) && Decode(Fetch(words, HaltAt(l))) == Halt
    requires l.calls ==>
               Placed(words, l.sub, SubAt(l), RetAt(l), RetAt(l), SubAt(l)) && Decode(Fetch(words, RetAt(l))) == Ret
    ensures LayoutOk(l) && Laid(l, words) && LeafOnly(l.sub)
  {
    hide WellFormed, Placed, Decode;
  }

  lemma ItemsObey(bs: seq<Block>, calls: bool)
    requires GoodBlocks(bs) && (HasCall(bs) ==> calls)
    ensures WellFormed(Items(bs), {}, false, calls, {})
  {
    hide WellFormedAt, GoodBlocks, HasCall, ItemCount;
    forall x | 0 <= x < |Items(bs)| ensures WellFormedAt(Items(bs), x, {}, false, calls, {}) {
      var i, m := BlockOf(bs, |bs|, x);
      ItemWellFormed(bs, i, m, calls);
    }
    hide Items, WellFormedAt;
    assert WellFormed(Items(bs), {}, false, calls, {});
  }

  lemma ItemsLie(bs: seq<Block>, marks: set<nat>, sub: seq<Word>, words: Program, table: Table, end: nat, subAt: nat)
    requires GoodProgram(bs, marks, sub) && AssembledAs(words, table, Listing(bs, marks, sub))
    requires HasCall(bs) ==> Lookup(table, SubStart) == subAt < 512
    ensures Placed(words, Items(bs), 0, end, end, subAt)
  {
    hide *;
    var items := Items(bs);
    ItemsLength(bs);
    forall x: nat | x < |items| ensures PlacedAt(words, items, x, 0, end, end, subAt) {
      var i, m := BlockOf(bs, |bs|, x);
      ItemPlaced(bs, marks, sub, words, table, i, m, end, subAt);
    }
    AllPlaced(words, items, 0, end, end, subAt);
  }

  lemma ItemsLength(bs: seq<Block>)
    ensures |Items(bs)| == First(bs, |bs|)
  {
  }

  lemma AllPlaced(words: Program, items: seq<Item>, base: nat, cont: nat, brk: nat, sub: nat)
    requires forall x: nat :: x < |items| ==> PlacedAt(words, items, x, base, cont, brk, sub)
    ensures Placed(words, items, base, cont, brk, sub)
  {
    hide PlacedAt;
  }

  /** HALT, and the subroutine after it. */
  lemma SubLies(bs: seq<Block>, marks: set<nat>, sub: seq<Word>, words: Program, table: Table)
    requires GoodProgram(bs, marks, sub) && AssembledAs(words, table, Listing(bs, marks, sub))
    ensures var halt := Address(bs, |bs|);
            && Decode(Fetch(words, halt)) == Halt
            && (sub != [] ==>
                  && Lookup(table, SubStart) == halt + 1
                  && (forall k :: 0 <= k < |sub| ==> Fetch(words, halt + 1 + k) == sub[k])
                  && Decode(Fetch(words, halt + 1 + |sub|)) == Ret
                  && |words| == halt + 2 + |sub|)
            && (sub == [] ==> |words| == halt + 1)
  {
    hide *;
    GoodParts(bs, marks, sub);
    HaltAndRet();
    var out, halt := Listing(bs, marks, sub), Address(bs, |bs|);
    ListingShape(bs, marks, sub);
    AssembledFixed(words, table, out, halt, Encode(Halt));
    if sub != [] {
      SubStretch(sub);
      AssembledFixed(words, table, out, halt + 1 + |sub|, Encode(Ret));
      AssembledLabel(words, table, out, halt + 1 + 0, SubStart);
      forall k | 0 <= k < |sub| ensures Fetch(words, halt + 1 + k) == sub[k] {
        AssembledFixed(words, table, out, halt + 1 + k, sub[k]);
      }
    }
  }

  lemma ListingShape(bs: seq<Block>, marks: set<nat>, sub: seq<Word>)
    requires GoodProgram(bs, marks, sub)
    ensures var out, halt := Listing(bs, marks, sub), Address(bs, |bs|);
            && |out| > halt && out[halt].code == Fixed(Encode(Halt))
            && (sub == [] ==> |out| == halt + 1)
            && (sub != [] ==> |out| == halt + 1 + |SubEntries(sub)|
                              && forall k :: 0 <= k < |SubEntries(sub)| ==> out[halt + 1 + k] == SubEntries(sub)[k])
  {
    ListingLength(bs, marks, |bs|);
    hide ListingTo, SubEntries, Encode, GoodBlocks;
  }

  lemma AssembledFixed(words: Program, table: Table, out: seq<Entry>, k: nat, w: Word)
    requires AssembledAs(words, table, out) && k < |out| && out[k].code == Fixed(w)
    ensures Fetch(words, k) == w && |words| == |out|
  {
    assert EntryAt(words, table, out, k);
  }

  lemma AssembledLabel(words: Program, table: Table, out: seq<Entry>, k: nat, l: Label)
    requires AssembledAs(words, table, out) && k < |out| && l in out[k].labels
    ensures Lookup(table, l) == k
  {
    assert EntryAt(words, table, out, k);
  }

  lemma SubStretch(sub: seq<Word>)
    requires sub != []
    ensures var es := SubEntries(sub);
            && |es| == |sub| + 1 && SubStart in es[0].labels && es[|sub|].code == Fixed(Encode(Ret))
            && forall k :: 0 <= k < |sub| ==> es[k].code == Fixed(sub[k])
  {
    hide Encode;
  }

  // ------------------------------------------------------------ the generator

  /** The generator's size parameters. */
  datatype Shape = Shape(minBlocks: nat, maxBlocks: nat, maxLoops: nat, maxCalls: nat)

  const DEFAULT_SHAPE := Shape(40, 100, 4, 3)
  const MAX_CLOSURE_SITES := 3

  /** Blocks are one word, but for loops and bursts of up to eight; HALT and a subroutine of
      up to eleven words follow. */
  predicate ShapeFits(shape: Shape) {
    && shape.minBlocks <= shape.maxBlocks
    && shape.maxBlocks + 7 * shape.maxLoops + 7 * MAX_CLOSURE_SITES + 12 <= PROGRAM_WORD_LIMIT
  }

  lemma DefaultFits()
    ensures ShapeFits(DEFAULT_SHAPE)
  {
  }

  /** A block as pass 1 decides it. */
  datatype Kind = LeafKind | BranchKind(cond: nat) | LoopKind(count: nat, bodyLen: nat, reg: nat) | CallKind
    | ClosureKind(drive: bool)

  function CountKind(ks: seq<Kind>, loops: bool): nat {
    if ks == [] then 0
    else
      CountKind(ks[..|ks| - 1], loops)
        + (if (if loops then ks[|ks| - 1].LoopKind? else ks[|ks| - 1].ClosureKind?) then 1 else 0)
  }

  predicate GoodKind(k: Kind, i: nat, targets: map<nat, nat>, n: nat) {
    match k
    case BranchKind(cond) => cond < COND_CALL && i in targets && i < targets[i] < n
    case LoopKind(count, bodyLen, reg) => 1 <= count <= 8 && 2 <= bodyLen <= 6 && reg < 4
    case _ => true
  }

  predicate GoodKinds(ks: seq<Kind>, targets: map<nat, nat>, n: nat) {
    forall i :: 0 <= i < |ks| ==> GoodKind(ks[i], i, targets, n)
  }

  /** Pass 1: the block kinds, and the block each branch leads to, always a later one.
      The last block finds no room to branch forward and becomes a leaf. */
  method Decide(n: nat, maxLoops: nat, maxCalls: nat) returns (ks: seq<Kind>, targets: map<nat, nat>)
    ensures |ks| == n && GoodKinds(ks, targets, n)
    ensures CountKind(ks, true) <= maxLoops && CountKind(ks, false) <= MAX_CLOSURE_SITES
  {
    ks, targets := [], map[];
    var loopSites, callSites, closureSites := 0, 0, 0;
    for i := 0 to n
      invariant |ks| == i && GoodKinds(ks, targets, n) && forall j :: j in targets ==> j < i
      invariant loopSites == CountKind(ks, true) <= maxLoops
      invariant closureSites == CountKind(ks, false) <= MAX_CLOSURE_SITES
    {
      var k := LeafKind;
      var r := RandInt(0, 4);
      ghost var before := targets;
      if r < 1 {
        var gap := RandInt(1, 15);
        var target := if i + gap < n - 1 then i + gap else n - 1;
        if target <= i {
          target := if i + 1 < n - 1 then i + 1 else n - 1;
        }
        var cond := RandInt(0, 2);
        if target > i {
          k := BranchKind(cond);
          targets := targets[i := target];
        }
      } else if loopSites < maxLoops && r < 2 {
        var count := RandInt(1, 8);
        var bodyLen := RandInt(2, 6);
        var reg := RandInt(0, 3);
        k := LoopKind(count, bodyLen, reg);
        loopSites := loopSites + 1;
      } else if callSites < maxCalls && r < 3 {
        k := CallKind;
        callSites := callSites + 1;
      } else if closureSites < MAX_CLOSURE_SITES && r < 4 {
        var drive := RandInt(0, 1);
        k := ClosureKind(drive == 0);
        closureSites := closureSites + 1;
      }
      ghost var prior := ks;
      ks := ks + [k];
      assert ks[..|ks| - 1] == prior;
      forall j | 0 <= j < |ks| ensures GoodKind(ks[j], j, targets, n) {
        if j < i {
          assert GoodKind(prior[j], j, before, n);
        }
      }
    }
  }

  /** A run of leaf words; `forbid` protects a loop counter. */
  method LeafRun(len: nat, delays: Caps, waits: Caps, forbid: Option<nat>) returns (ws: seq<Word>)
    requires DelayCaps(delays) && WaitCaps(waits)
    ensures |ws| == len && Plain(ws) && (forbid.Some? ==> Protected(ws, forbid.value))
  {
    ws := [];
    for k := 0 to len
      invariant |ws| == k && Plain(ws) && (forbid.Some? ==> Protected(ws, forbid.value))
    {
      var w := GenLeafWord(delays, waits, forbid);
      ws := ws + [w];
    }
  }

  /** A transmission: `bits` bits of `data` on a pin, from either end. */
  datatype Burst = Burst(pin: nat, mode: nat, rd: nat, rc: nat, msbFirst: bool, bits: nat, data: nat, delay: nat)

  predicate GoodBurst(p: Burst) {
    && p.pin < 8 && 1 <= p.mode <= 2 && p.rd < 4 && p.rc < 4 && p.rd != p.rc
    && 1 <= p.bits <= 8 && p.data < 256 && p.delay < 16
  }

  function BurstBlock(p: Burst): Block {
    var sel, dir := if p.msbFirst then BITSEL_BIT7 else BITSEL_BIT0, if p.msbFirst then SHIFT_LEFT else SHIFT_RIGHT;
    LoopBlock([Encode(Ldi(p.rd, p.data)), Encode(SetPin(p.mode, p.pin, 1))], p.rc, p.bits,
              [Encode(OutBit(p.rd, p.pin, sel)), Encode(Delay(p.delay, 0)), Encode(Shift(p.rd, dir))],
              [Encode(SetPin(SET_MODE_LEAVE, p.pin, 1))])
  }

  /** The bit-bang transmit burst: configure the pin, then shift a register out. */
  method DriveBurst() returns (b: Block, ghost p: Burst)
    ensures GoodBurst(p) && b == BurstBlock(p) && GoodBlock(b, 0, 1) && p.pin in PROTOCOL_PINS
  {
    var pin := ChoosePin();
    var mode := RandInt(SET_MODE_PUSH_PULL, SET_MODE_OPEN_DRAIN);
    var rd := RandInt(0, 3);
    var rc := ChooseReg(Some(rd));
    var msb := RandInt(0, 1);
    var sel, dir := if msb == 0 then BITSEL_BIT7 else BITSEL_BIT0, if msb == 0 then SHIFT_LEFT else SHIFT_RIGHT;
    var bits := RandInt(1, 8);
    var data := RandInt(0, 255);
    var delay := RandInt(0, 15);
    b := LoopBlock([Encode(Ldi(rd, data)), Encode(SetPin(mode, pin, 1))], rc, bits,
                   [Encode(OutBit(rd, pin, sel)), Encode(Delay(delay, 0)), Encode(Shift(rd, dir))],
                   [Encode(SetPin(SET_MODE_LEAVE, pin, 1))]);
    p := Burst(pin, mode, rd, rc, msb == 0, bits, data, delay);
    DriveGood(mode, pin, rd, rc, sel, dir, bits, data, delay);
  }

  lemma BurstSize(p: Burst)
    ensures var b := BurstBlock(p); b.LoopBlock? && Size(b) == 8
  {
  }

  lemma DriveGood(mode: nat, pin: nat, rd: nat, rc: nat, sel: nat, dir: nat, bits: nat, data: nat, delay: nat)
    requires 1 <= mode <= 2 && pin < 8 && rd < 4 && rc < 4 && rc != rd && sel < 2 && dir < 2 && 1 <= bits <= 8
    requires data < 256 && delay < 16
    ensures GoodBlock(LoopBlock([Encode(Ldi(rd, data)), Encode(SetPin(mode, pin, 1))], rc, bits,
                                [Encode(OutBit(rd, pin, sel)), Encode(Delay(delay, 0)), Encode(Shift(rd, dir))],
                                [Encode(SetPin(SET_MODE_LEAVE, pin, 1))]), 0, 1)
  {
    hide Decode, Encode, DefinedLeaf;
    EncodedLeaf(Ldi(rd, data));
    EncodedLeaf(SetPin(mode, pin, 1));
    EncodedLeaf(OutBit(rd, pin, sel));
    EncodedLeaf(Delay(delay, 0));
    EncodedLeaf(Shift(rd, dir));
    EncodedLeaf(SetPin(SET_MODE_LEAVE, pin, 1));
  }

  /** The bounded poll: wait with a short timeout, leave when met, else try again. */
  method RetryBurst() returns (b: Block)
    ensures b.RetryBlock? && GoodBlock(b, 0, 1)
    ensures var w := Decode(b.wait);
            && w.Wait? && 1 <= w.mantissa <= 3 && w.exponent == 0 && w.pin in PROTOCOL_PINS
            && Decode(b.last) == InBit(b.reg, w.pin, BITSEL_BIT0)
  {
    var pin := ChoosePin();
    var level := RandInt(0, 1);
    var timeout := RandInt(1, 3);
    var rc := RandInt(0, 3);
    var attempts := RandInt(1, 8);
    var wait, last := Wait(pin, level, timeout, 0), InBit(rc, pin, BITSEL_BIT0);
    EncodedLeaf(wait);
    EncodedLeaf(last);
    hide Decode, Encode;
    b := RetryBlock(rc, attempts, Encode(wait), Encode(last));
  }

  // ------------------------------------------------------------ pass 2

  lemma {:induction false} ListingGrows(bs: seq<Block>, b: Block, marks: set<nat>, n: nat)
    requires n <= |bs|
    ensures ListingTo(bs + [b], marks, n) == ListingTo(bs, marks, n)
    decreases n
  {
    hide *;
    ListingNone(bs, marks);
    ListingNone(bs + [b], marks);
    if n > 0 {
      ListingGrows(bs, b, marks, n - 1);
      EntriesGrow(bs, b, marks, n - 1);
      ListingNext(bs, marks, n);
      ListingNext(bs + [b], marks, n);
    }
  }

  lemma EntriesGrow(bs: seq<Block>, b: Block, marks: set<nat>, i: nat)
    requires i < |bs|
    ensures BlockEntries(bs + [b], marks, i) == BlockEntries(bs, marks, i)
  {
    hide BareEntries, WithLabels;
  }

  /** A block has the size its kind allows. */
  predicate Fits(b: Block, k: Kind, i: nat, targets: map<nat, nat>, n: nat) {
    && GoodBlock(b, i, n)
    && Size(b) <= (if k.LoopKind? || k.ClosureKind? then 8 else 1)
    && (b.CallBlock? <==> k.CallKind?)
    && (b.BranchBlock? ==> i in targets && b.target == targets[i])
  }

  predicate AllFit(bs: seq<Block>, ks: seq<Kind>, targets: map<nat, nat>) {
    |bs| <= |ks| && forall i :: 0 <= i < |bs| ==> Fits(bs[i], ks[i], i, targets, |ks|)
  }

  /** The words of block `i`. */
  method Expand(k: Kind, i: nat, n: nat, targets: map<nat, nat>, delays: Caps, waits: Caps) returns (b: Block)
    requires DelayCaps(delays) && WaitCaps(waits) && GoodKind(k, i, targets, n)
    ensures Fits(b, k, i, targets, n)
  {
    match k {
      case LeafKind =>
        var w := GenLeafWord(delays, waits, None);
        b := LeafBlock(w);
      case BranchKind(cond) => b := BranchBlock(cond, targets[i]);
      case LoopKind(count, bodyLen, reg) =>
        var body := LeafRun(bodyLen, delays, waits, Some(reg));
        b := LoopBlock([], reg, count, body, []);
      case CallKind => b := CallBlock;
      case ClosureKind(drive) =>
        if drive {
          ghost var p;
          b, p := DriveBurst();
          BurstSize(p);
        } else {
          b := RetryBurst();
        }
    }
    hide DefinedLeaf, Keeps;
  }

  method ExpandAll(ks: seq<Kind>, targets: map<nat, nat>, delays: Caps, waits: Caps)
    returns (entries: seq<Entry>, ghost bs: seq<Block>)
    requires DelayCaps(delays) && WaitCaps(waits) && GoodKinds(ks, targets, |ks|)
    ensures |bs| == |ks| && AllFit(bs, ks, targets) && entries == ListingTo(bs, targets.Values, |bs|)
  {
    entries, bs := [], [];
    hide BareEntries, WithLabels, Fits, ListingTo;
    assert ListingTo(bs, targets.Values, 0) == [] by { ListingNone(bs, targets.Values); }
    for i := 0 to |ks|
      invariant |bs| == i && AllFit(bs, ks, targets) && entries == ListingTo(bs, targets.Values, i)
    {
      assert GoodKind(ks[i], i, targets, |ks|);
      hide GoodKinds, GoodKind;
      var b := Expand(ks[i], i, |ks|, targets, delays, waits);
      var own := if i in targets.Values then [BlockStart(i)] else [];
      ListingSnoc(bs, b, targets.Values);
      entries := entries + WithLabels(own, BareEntries(b, i));
      ghost var prior := bs;
      bs := bs + [b];
      assert forall j :: 0 <= j < i ==> bs[j] == prior[j];
    }
  }

  lemma ListingNone(bs: seq<Block>, marks: set<nat>)
    ensures ListingTo(bs, marks, 0) == []
  {
  }

  lemma ListingSnoc(bs: seq<Block>, b: Block, marks: set<nat>)
    ensures var n := |bs|;
            ListingTo(bs + [b], marks, n + 1) ==
            ListingTo(bs, marks, n) + WithLabels(if n in marks then [BlockStart(n)] else [], BareEntries(b, n))
  {
    ListingGrows(bs, b, marks, |bs|);
    hide BareEntries, WithLabels;
  }

  /** At most eight words for each loop and burst, one for every other block. */
  lemma {:induction false} AddressBound(bs: seq<Block>, ks: seq<Kind>, targets: map<nat, nat>, n: nat)
    requires AllFit(bs, ks, targets) && n <= |bs|
    ensures Address(bs, n) <= n + 7 * CountKind(ks[..n], true) + 7 * CountKind(ks[..n], false)
  {
    if n > 0 {
      AddressBound(bs, ks, targets, n - 1);
      assert Fits(bs[n - 1], ks[n - 1], n - 1, targets, |ks|);
      assert ks[..n][..n - 1] == ks[..n - 1] && ks[..n][n - 1] == ks[n - 1];
      hide Size;
    }
  }

  lemma BlocksGood(shape: Shape, bs: seq<Block>, ks: seq<Kind>, targets: map<nat, nat>, sub: seq<Word>)
    requires ShapeFits(shape) && |bs| == |ks| <= shape.maxBlocks && AllFit(bs, ks, targets) && Plain(sub)
    requires |sub| <= 10 && (HasCall(bs) ==> sub != [])
    requires CountKind(ks, true) <= shape.maxLoops && CountKind(ks, false) <= MAX_CLOSURE_SITES
    ensures GoodProgram(bs, targets.Values, sub)
  {
    AddressBound(bs, ks, targets, |bs|);
    assert ks[..|bs|] == ks;
    hide Address, CountKind, Size, Plain;
    forall i | 0 <= i < |bs| ensures GoodBlock(bs[i], i, |bs|)
      && (bs[i].BranchBlock? ==> bs[i].target in targets.Values) {
      assert Fits(bs[i], ks[i], i, targets, |ks|);
    }
  }

  /** The shared subroutine: a leaf-only run and RET. */
  method Subroutine(delays: Caps, waits: Caps) returns (sub: seq<Word>)
    requires DelayCaps(delays) && WaitCaps(waits)
    ensures 3 <= |sub| <= 10 && Plain(sub)
  {
    var len := RandInt(3, 10);
    sub := LeafRun(len, delays, waits, None);
  }

  predicate AllDefined(words: Program) {
    forall k :: 0 <= k < |words| ==> Opcode(words[k]) < 21
  }

  lemma CallsKnown(bs: seq<Block>, ks: seq<Kind>, targets: map<nat, nat>)
    requires |bs| == |ks| && AllFit(bs, ks, targets)
    ensures HasCall(bs) <==> exists i :: 0 <= i < |ks| && ks[i].CallKind?
  {
    if HasCall(bs) {
      var i :| 0 <= i < |bs| && bs[i].CallBlock?;
      assert Fits(bs[i], ks[i], i, targets, |ks|);
      assert ks[i].CallKind?;
    }
  }

  lemma ListingIs(bs: seq<Block>, marks: set<nat>, sub: seq<Word>, entries: seq<Entry>)
    requires entries == ListingTo(bs, marks, |bs|) + [Entry([], Fixed(Encode(Halt)))]
             + (if sub == [] then [] else SubEntries(sub))
    ensures entries == Listing(bs, marks, sub)
  {
  }

  lemma ListingSize(bs: seq<Block>, marks: set<nat>, sub: seq<Word>)
    requires GoodProgram(bs, marks, sub)
    ensures |Listing(bs, marks, sub)| <= PROGRAM_WORD_LIMIT
  {
    ListingShape(bs, marks, sub);
    hide Listing, GoodBlocks;
  }

  /** Every label looks up to its entry, because none is defined twice. */
  lemma AssembledOk(bs: seq<Block>, marks: set<nat>, sub: seq<Word>, words: Program, labels: Table)
    requires GoodProgram(bs, marks, sub)
    requires var out := Listing(bs, marks, sub);
             && labels == Dictionary(out, |out|) && |words| == |out|
             && forall k :: 0 <= k < |out| ==> words[k] == Resolve(out[k].code, labels)
    ensures AssembledAs(words, labels, Listing(bs, marks, sub)) && |words| <= PROGRAM_WORD_LIMIT
  {
    var out := Listing(bs, marks, sub);
    ListingSize(bs, marks, sub);
    GoodParts(bs, marks, sub);
    ListingUnique(bs, marks, sub);
    hide Listing, Resolve, Dictionary, LabelsOf, GoodProgram;
    forall k | 0 <= k < |out| ensures EntryAt(words, labels, out, k) {
      DictionaryAgrees(out, |out|, k);
    }
  }

  // ------------------------------------------------------------ defined opcodes

  predicate DefinedCode(c: Code) {
    c.Fixed? ==> Opcode(c.word) < 21
  }

  lemma ResolvedDefined(c: Code, labels: Table)
    requires DefinedCode(c)
    ensures Opcode(Resolve(c, labels)) < 21
  {
    match c
    case Fixed(w) =>
    case CallSub => EncodedDefined(Instr.Branch(COND_CALL, Lookup(labels, SubStart)));
    case BranchTo(cond, l) => EncodedDefined(Instr.Branch(cond, Lookup(labels, l)));
    case LoopTo(l, reg) => EncodedDefined(Instr.Loop(Lookup(labels, l), reg));
  }

  lemma EncodedDefined(i: Instr)
    requires !i.Reserved?
    ensures Opcode(Encode(i)) < 21
  {
    MaskedDefined(i);
    hide Masked, OpcodeOf, OperandsOf;
    DivModUnique(Encode(i), 2048, OpcodeOf(Masked(i)), OperandsOf(Masked(i)));
  }

  lemma MaskedDefined(i: Instr)
    requires !i.Reserved?
    ensures OpcodeOf(Masked(i)) < 21
  {
    hide OperandsOf;
  }

  predicate DefinedEntries(es: seq<Entry>) {
    forall k :: 0 <= k < |es| ==> DefinedCode(es[k].code)
  }

  lemma StraightDefined(ws: seq<Word>)
    requires Plain(ws)
    ensures DefinedEntries(Straight(ws))
  {
    forall k | 0 <= k < |ws| ensures DefinedCode(Straight(ws)[k].code) {
      DefinedIsLeaf(ws[k]);
    }
  }

  lemma BareDefined(b: Block, i: nat, n: nat)
    requires GoodBlock(b, i, n)
    ensures DefinedEntries(BareEntries(b, i))
  {
    match b
    case LeafBlock(w) => DefinedIsLeaf(w);
    case BranchBlock(_, _) =>
    case CallBlock =>
    case LoopBlock(before, reg, count, body, after) =>
      LoopDefined(b, i);
    case RetryBlock(reg, count, wait, last) =>
      EncodedDefined(Ldi(reg, count));
      DefinedIsLeaf(wait);
      DefinedIsLeaf(last);
      hide Encode, Opcode, DefinedLeaf;
  }

  lemma LoopDefined(b: Block, i: nat)
    requires b.LoopBlock? && Plain(b.before) && Plain(b.body) && Plain(b.after)
    ensures DefinedEntries(BareEntries(b, i))
  {
    StraightDefined(b.before);
    StraightDefined(b.body);
    StraightDefined(b.after);
    EncodedDefined(Ldi(b.reg, b.count));
    WithLabelsDefined([LoopStart(i)], Straight(b.body));
    var p := LoopParts(b, i);
    assert BareEntries(b, i) == p[0] + p[1] + p[2] + p[3] + p[4];
    assert DefinedEntries(p[1]) && DefinedEntries(p[3]);
    hide BareEntries, Encode, Straight, WithLabels, DefinedCode, Plain, LoopParts;
  }

  lemma WithLabelsDefined(ls: seq<Label>, es: seq<Entry>)
    requires DefinedEntries(es)
    ensures DefinedEntries(WithLabels(ls, es))
  {
    hide DefinedCode;
    forall k | 0 <= k < |es| ensures DefinedCode(WithLabels(ls, es)[k].code) {
      assert WithLabels(ls, es)[k].code == es[k].code;
    }
  }

  lemma {:induction false} ListingToDefined(bs: seq<Block>, marks: set<nat>, n: nat)
    requires GoodBlocks(bs) && n <= |bs|
    ensures DefinedEntries(ListingTo(bs, marks, n))
  {
    hide *;
    NoneDefined(bs, marks);
    if n > 0 {
      ListingToDefined(bs, marks, n - 1);
      BlockDefined(bs, marks, n - 1);
      ListingNext(bs, marks, n);
      ConcatDefined(ListingTo(bs, marks, n - 1), BlockEntries(bs, marks, n - 1));
    }
  }

  lemma NoneDefined(bs: seq<Block>, marks: set<nat>)
    ensures DefinedEntries(ListingTo(bs, marks, 0))
  {
  }

  lemma ListingNext(bs: seq<Block>, marks: set<nat>, n: nat)
    requires 0 < n <= |bs|
    ensures ListingTo(bs, marks, n) == ListingTo(bs, marks, n - 1) + BlockEntries(bs, marks, n - 1)
  {
    hide BlockEntries;
  }

  lemma ConcatDefined(a: seq<Entry>, b: seq<Entry>)
    requires DefinedEntries(a) && DefinedEntries(b)
    ensures DefinedEntries(a + b)
  {
    hide DefinedCode;
  }

  lemma BlockDefined(bs: seq<Block>, marks: set<nat>, i: nat)
    requires GoodBlocks(bs) && i < |bs|
    ensures DefinedEntries(BlockEntries(bs, marks, i))
  {
    assert GoodBlock(bs[i], i, |bs|);
    BareDefined(bs[i], i, |bs|);
    WithLabelsDefined(if i in marks then [BlockStart(i)] else [], BareEntries(bs[i], i));
    hide BareEntries, WithLabels, DefinedEntries, GoodBlocks;
  }

  lemma ListingDefined(bs: seq<Block>, marks: set<nat>, sub: seq<Word>, words: Program, labels: Table)
    requires GoodProgram(bs, marks, sub) && AssembledAs(words, labels, Listing(bs, marks, sub))
    ensures AllDefined(words)
  {
    var out := Listing(bs, marks, sub);
    EntriesDefined(bs, marks, sub);
    hide Listing, Resolve, GoodProgram, Opcode, DefinedCode;
    forall k | 0 <= k < |words| ensures Opcode(words[k]) < 21 {
      assert EntryAt(words, labels, out, k);
      ResolvedDefined(out[k].code, labels);
    }
  }

  lemma EntriesDefined(bs: seq<Block>, marks: set<nat>, sub: seq<Word>)
    requires GoodProgram(bs, marks, sub)
    ensures DefinedEntries(Listing(bs, marks, sub))
  {
    hide ListingTo, Straight, WithLabels, Encode, GoodBlocks, Opcode;
    ListingToDefined(bs, marks, |bs|);
    EncodedDefined(Halt);
    EncodedDefined(Ret);
    StraightDefined(sub);
    WithLabelsDefined([SubStart], Straight(sub));
  }

  lemma ItemsFlat(bs: seq<Block>, sub: seq<Word>)
    requires GoodBlocks(bs)
    ensures FlatLoops(LayoutOf(bs, sub).items)
  {
    hide *;
    LayoutParts(bs, sub);
    var items := Items(bs);
    ItemsLength(bs);
    forall x: nat | x < |items| && items[x].Loop? ensures NoLoops(items[x].body) && items[x].count >= 1 {
      var i, m := BlockOf(bs, |bs|, x);
      BlockStarts(bs, i, m);
      BlockFlat(bs, i, m);
    }
    AllFlat(items);
  }

  lemma AllFlat(items: seq<Item>)
    requires forall x: nat :: x < |items| && items[x].Loop? ==> NoLoops(items[x].body) && items[x].count >= 1
    ensures FlatLoops(items)
  {
    hide NoLoops;
  }

  lemma BlockFlat(bs: seq<Block>, i: nat, m: nat)
    requires GoodBlocks(bs) && i < |bs| && m < ItemCount(bs[i]) && BlockItems(bs, i)[m].Loop?
    ensures NoLoops(BlockItems(bs, i)[m].body) && BlockItems(bs, i)[m].count >= 1
  {
    assert GoodBlock(bs[i], i, |bs|);
    if bs[i].LoopBlock? {
      LoopItemAt(bs[i], m);
      LeavesAt(bs[i].body);
    }
  }

  /** The generator. Its size assertion never fails, and what it returns is a laid-out
      structured program of defined opcodes: so by `LayoutHalts` it runs from reset to
      HALT whatever the pins do. */
  method GenerateProgram(shape: Shape, delays: Caps, waits: Caps)
    returns (words: Program, ghost l: Layout, ghost bs: seq<Block>)
    requires ShapeFits(shape) && DelayCaps(delays) && WaitCaps(waits)
    ensures |words| <= PROGRAM_WORD_LIMIT && AllDefined(words)
    ensures LayoutOk(l) && Laid(l, words) && LeafOnly(l.sub) && FlatLoops(l.items) && Length(l) == |words|
    ensures shape.minBlocks <= |bs| <= shape.maxBlocks && GoodBlocks(bs)
    ensures l.items == Items(bs) && |bs| <= HaltAt(l) && (l.calls <==> HasCall(bs))
  {
    var n := RandInt(shape.minBlocks, shape.maxBlocks);
    var ks, targets := Decide(n, shape.maxLoops, shape.maxCalls);
    var entries;
    entries, bs := ExpandAll(ks, targets, delays, waits);
    entries := entries + [Entry([], Fixed(Encode(Halt)))];
    var calls := exists i :: 0 <= i < |ks| && ks[i].CallKind?;
    var sub: seq<Word> := [];
    if calls {
      sub := Subroutine(delays, waits);
      entries := entries + SubEntries(sub);
    }
    ghost var marks := targets.Values;
    CallsKnown(bs, ks, targets);
    BlocksGood(shape, bs, ks, targets, sub);
    hide *;
    ListingIs(bs, marks, sub, entries);
    var labels := BuildLabels(entries);
    words := ResolveAll(entries, labels);
    AssembledOk(bs, marks, sub, words, labels);
    ListingLaid(bs, marks, sub, words, labels);
    ListingDefined(bs, marks, sub, words, labels);
    ItemsFlat(bs, sub);
    l := LayoutOf(bs, sub);
    LayoutParts(bs, sub);
    GoodParts(bs, marks, sub);
    BlocksTakeWords(bs, |bs|);
  }

  lemma {:induction false} BlocksTakeWords(bs: seq<Block>, n: nat)
    requires n <= |bs|
    ensures Address(bs, n) >= n
    decreases n
  {
    if n > 0 {
      BlocksTakeWords(bs, n - 1);
    }
  }
}
