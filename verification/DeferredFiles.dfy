/** Deferred-proof input files: how the splitter numbers them and how the stage
    recovers their production order from an unordered directory listing. */
module DeferredFiles {
  import opened Receipts

  datatype DeferredFile = DeferredFile(number: nat, content: Receipt)

  // A directory entry: a parsable "deferred_proof_<number>" or anything else.
  datatype DirEntry = Deferred(file: DeferredFile) | Other(name: string)

  const FIRST_NUMBER := 0x1_0000

  /** (1 << 16) | i, on unbounded i: sets bit 16 and keeps the others. */
  function FileNumber(i: nat): nat {
    if (i / FIRST_NUMBER) % 2 == 0 then i + FIRST_NUMBER else i
  }

  /** The files written for the given inputs, in production order. */
  function Produced(inputs: seq<Receipt>): seq<DeferredFile> {
    seq(|inputs|, i requires 0 <= i < |inputs| => DeferredFile(FileNumber(i), inputs[i]))
  }

  function FilesIn(listing: seq<DirEntry>): seq<DeferredFile> {
    if listing == [] then []
    else (if listing[0].Deferred? then [listing[0].file] else []) + FilesIn(listing[1..])
  }

  lemma {:induction false} FilesInSnoc(listing: seq<DirEntry>, e: DirEntry)
    ensures FilesIn(listing + [e]) == FilesIn(listing) + if e.Deferred? then [e.file] else []
  {
    if listing == [] {
      assert [e][1..] == [];
    } else {
      var head := if listing[0].Deferred? then [listing[0].file] else [];
      assert (listing + [e])[1..] == listing[1..] + [e];
      assert FilesIn(listing + [e]) == head + FilesIn(listing[1..] + [e]);
      FilesInSnoc(listing[1..], e);
    }
  }

  ghost predicate AllFrom(n: nat, files: seq<DeferredFile>) {
    forall f :: f in files ==> n <= f.number
  }

  ghost predicate Sorted(files: seq<DeferredFile>) {
    files == [] || (AllFrom(files[0].number, files[1..]) && Sorted(files[1..]))
  }

  ghost predicate DistinctNumbers(files: seq<DeferredFile>) {
    forall i, j :: 0 <= i < j < |files| ==> files[i].number != files[j].number
  }

  /** Stable sort by number. */
  function SortByNumber(files: seq<DeferredFile>): (sorted: seq<DeferredFile>) {
    if files == [] then [] else Insert(files[0], SortByNumber(files[1..]))
  }

  function Insert(f: DeferredFile, files: seq<DeferredFile>): (r: seq<DeferredFile>) {
    if files == [] || f.number <= files[0].number then [f] + files
    else [files[0]] + Insert(f, files[1..])
  }

  lemma {:induction false} InsertMembers(f: DeferredFile, files: seq<DeferredFile>)
    ensures multiset(Insert(f, files)) == multiset(files) + multiset{f}
  {
    if files == [] || f.number <= files[0].number {
    } else {
      InsertMembers(f, files[1..]);
      assert files == [files[0]] + files[1..];
    }
  }

  lemma {:induction false} InsertSorted(f: DeferredFile, files: seq<DeferredFile>)
    requires Sorted(files)
    ensures Sorted(Insert(f, files))
  {
    if files == [] || f.number <= files[0].number {
      assert ([f] + files)[1..] == files;
    } else {
      InsertSorted(f, files[1..]);
      var rest := Insert(f, files[1..]);
      InsertMembers(f, files[1..]);
      forall g | g in rest
        ensures files[0].number <= g.number
      {
        assert g in multiset(rest);
      }
      assert ([files[0]] + rest)[1..] == rest;
    }
  }

  /** The result is in ascending order and holds exactly the given files. */
  lemma {:induction false} SortedPermutation(files: seq<DeferredFile>)
    ensures Sorted(SortByNumber(files)) && multiset(SortByNumber(files)) == multiset(files)
  {
    if files != [] {
      SortedPermutation(files[1..]);
      InsertSorted(files[0], SortByNumber(files[1..]));
      InsertMembers(files[0], SortByNumber(files[1..]));
      assert files == [files[0]] + files[1..];
    }
  }

  /** Numbering keeps production order exactly up to 2^16 files. */
  lemma {:induction false} NumberingKeepsOrder(n: nat)
    ensures (forall i, j :: 0 <= i < j < n ==> FileNumber(i) < FileNumber(j)) <==> n <= 0x1_0000
  {
    if n > FIRST_NUMBER {
      var i, j := 0, FIRST_NUMBER;
      assert FileNumber(i) == FileNumber(j);
    }
  }

  lemma {:induction false} AscendingIsSorted(files: seq<DeferredFile>)
    requires forall i, j :: 0 <= i < j < |files| ==> files[i].number < files[j].number
    ensures Sorted(files) && DistinctNumbers(files)
  {
    if files != [] {
      AscendingIsSorted(files[1..]);
    }
  }

  lemma {:induction false} SameHead(xs: seq<DeferredFile>, ys: seq<DeferredFile>)
    requires Sorted(xs) && Sorted(ys) && DistinctNumbers(ys) && multiset(xs) == multiset(ys)
    requires xs != [] && ys != []
    ensures xs[0] == ys[0]
  {
    assert xs[0] in multiset(ys) && ys[0] in multiset(xs);
    assert ys == [ys[0]] + ys[1..] && xs == [xs[0]] + xs[1..];
    assert xs[0].number == ys[0].number;
    var i :| 0 <= i < |ys| && ys[i] == xs[0];
  }

  lemma SameTail(x: DeferredFile, xs: seq<DeferredFile>, ys: seq<DeferredFile>)
    requires multiset([x] + xs) == multiset([x] + ys)
    ensures multiset(xs) == multiset(ys)
  {
    assert multiset(xs) == multiset([x] + xs) - multiset{x};
    assert multiset(ys) == multiset([x] + ys) - multiset{x};
  }

  lemma {:induction false} SortedIsUnique(xs: seq<DeferredFile>, ys: seq<DeferredFile>)
    requires Sorted(xs) && Sorted(ys) && DistinctNumbers(ys) && multiset(xs) == multiset(ys)
    ensures xs == ys
  {
    assert |xs| == |multiset(xs)| == |multiset(ys)| == |ys|;
    if xs != [] {
      SameHead(xs, ys);
      assert xs == [xs[0]] + xs[1..] && ys == [xs[0]] + ys[1..];
      SameTail(xs[0], xs[1..], ys[1..]);
      SortedIsUnique(xs[1..], ys[1..]);
    }
  }

  /** Whatever order the directory is listed in, sorting returns the files in
      production order, provided fewer than 2^16 + 1 were produced. */
  lemma {:induction false} ListingOrderIrrelevant(listing: seq<DirEntry>, inputs: seq<Receipt>)
    requires multiset(FilesIn(listing)) == multiset(Produced(inputs))
    requires |inputs| <= FIRST_NUMBER
    ensures SortByNumber(FilesIn(listing)) == Produced(inputs)
  {
    NumberingKeepsOrder(|inputs|);
    SortedPermutation(FilesIn(listing));
    AscendingIsSorted(Produced(inputs));
    SortedIsUnique(SortByNumber(FilesIn(listing)), Produced(inputs));
  }
}
