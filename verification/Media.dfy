// Listing images and videos: review decisions and the ordering of the images
// still shown. An image id is its position in the table, rows are only marked
// deleted.
module Media {
  import opened Sequences

  datatype Review = PendingReview | ApprovedReview | RejectedReview

  datatype Image = Image(ordering: nat, ready: bool, review: Review, reason: string)

  datatype Video = Video(ready: bool, review: Review, reason: string)

  // ---- rows in display order ----

  predicate ValidIds(images: seq<Image>, ids: seq<nat>) {
    forall i :: 0 <= i < |ids| ==> ids[i] < |images|
  }

  function InsertByOrdering(images: seq<Image>, id: nat, ids: seq<nat>): (r: seq<nat>)
    requires id < |images| && ValidIds(images, ids)
    ensures ValidIds(images, r)
  {
    if ids == [] then [id]
    else if images[id].ordering < images[ids[0]].ordering then [id] + ids
    else [ids[0]] + InsertByOrdering(images, id, ids[1..])
  }

  function ReadyBelow(images: seq<Image>, n: nat): (ids: seq<nat>)
    requires n <= |images|
    ensures ValidIds(images, ids)
  {
    if n == 0 then []
    else if images[n - 1].ready then InsertByOrdering(images, n - 1, ReadyBelow(images, n - 1))
    else ReadyBelow(images, n - 1)
  }

  // The READY images ordered by their ordering column.
  function ReadyInOrder(images: seq<Image>): (ids: seq<nat>)
    ensures ValidIds(images, ids)
  {
    ReadyBelow(images, |images|)
  }

  function ReadySet(images: seq<Image>): set<nat> {
    set i | 0 <= i < |images| && images[i].ready
  }

  ghost predicate Ordered(images: seq<Image>, ids: seq<nat>)
    requires ValidIds(images, ids)
  {
    forall i, j :: 0 <= i < j < |ids| ==> images[ids[i]].ordering <= images[ids[j]].ordering
  }

  lemma {:induction false} InsertMembers(images: seq<Image>, id: nat, ids: seq<nat>)
    requires id < |images| && ValidIds(images, ids)
    ensures var r := InsertByOrdering(images, id, ids); |r| == |ids| + 1 && forall x :: x in r <==> x == id || x in ids
  {
    if ids != [] && images[id].ordering >= images[ids[0]].ordering {
      InsertMembers(images, id, ids[1..]);
      assert forall x :: x in ids <==> x == ids[0] || x in ids[1..];
    }
  }

  // Putting a row before rows of no lower ordering.
  lemma PrependFacts(images: seq<Image>, id: nat, ids: seq<nat>)
    requires id < |images| && ValidIds(images, ids) && Ordered(images, ids) && Distinct(ids) && id !in ids
    requires forall x :: x in ids ==> x < |images| && images[id].ordering <= images[x].ordering
    ensures Ordered(images, [id] + ids) && Distinct([id] + ids)
  {
    assert forall j :: 0 <= j < |ids| ==> ids[j] in ids;
  }

  lemma TailFacts(images: seq<Image>, ids: seq<nat>)
    requires ids != [] && ValidIds(images, ids) && Ordered(images, ids) && Distinct(ids)
    ensures Ordered(images, ids[1..]) && Distinct(ids[1..]) && ids[0] !in ids[1..]
    ensures forall x :: x in ids ==> x < |images| && images[ids[0]].ordering <= images[x].ordering
    ensures forall x :: x in ids <==> x == ids[0] || x in ids[1..]
  {
  }

  lemma {:induction false} InsertFacts(images: seq<Image>, id: nat, ids: seq<nat>)
    requires id < |images| && ValidIds(images, ids) && Ordered(images, ids) && Distinct(ids) && id !in ids
    ensures var r := InsertByOrdering(images, id, ids);
      Ordered(images, r) && Distinct(r) && |r| == |ids| + 1 && forall x :: x in r <==> x == id || x in ids
  {
    InsertMembers(images, id, ids);
    if ids == [] {
    } else {
      hide Ordered, Distinct;
      TailFacts(images, ids);
      if images[id].ordering < images[ids[0]].ordering {
        PrependFacts(images, id, ids);
      } else {
        InsertMembers(images, id, ids[1..]);
        InsertFacts(images, id, ids[1..]);
        PrependFacts(images, ids[0], InsertByOrdering(images, id, ids[1..]));
      }
    }
  }

  // The query returns every READY row once, in order.
  lemma {:induction false} ReadyBelowFacts(images: seq<Image>, n: nat)
    requires n <= |images|
    ensures var ids := ReadyBelow(images, n);
      Ordered(images, ids) && Distinct(ids) && forall x :: x in ids <==> 0 <= x < n && images[x].ready
  {
    if n > 0 {
      ReadyBelowFacts(images, n - 1);
      var before := ReadyBelow(images, n - 1);
      assert n - 1 !in before;
      if images[n - 1].ready {
        InsertFacts(images, n - 1, before);
        assert forall x :: x in ReadyBelow(images, n) <==> x == n - 1 || x in before;
      }
    }
  }

  lemma ReadyFacts(images: seq<Image>)
    ensures var ids := ReadyInOrder(images);
      Ordered(images, ids) && Distinct(ids) && forall x :: x in ids <==> x in ReadySet(images)
  {
    ReadyBelowFacts(images, |images|);
  }

  function Elements(ids: seq<nat>): set<nat> {
    set x | x in ids
  }

  lemma {:induction false} DistinctCount(ids: seq<nat>)
    ensures |Elements(ids)| <= |ids|
    ensures |Elements(ids)| == |ids| <==> Distinct(ids)
  {
    if ids != [] {
      var last, init := ids[|ids| - 1], ids[..|ids| - 1];
      DistinctCount(init);
      assert ids == init + [last];
      assert Elements(ids) == Elements(init) + {last};
      if last in init {
        assert Elements(ids) == Elements(init);
        var i :| 0 <= i < |init| && init[i] == last;
        assert ids[i] == ids[|ids| - 1];
      } else {
        assert forall i, j :: 0 <= i < j < |init| ==> (ids[i] != ids[j] <==> init[i] != init[j]);
      }
    }
  }

  lemma ReadyCount(images: seq<Image>)
    ensures |ReadyInOrder(images)| == |ReadySet(images)|
  {
    ReadyFacts(images);
    DistinctCount(ReadyInOrder(images));
    assert Elements(ReadyInOrder(images)) == ReadySet(images);
  }

  // ---- ordering invariants ----

  // The unique constraint on (listing, ordering) of READY rows.
  ghost predicate UniqueReady(images: seq<Image>) {
    forall i, j :: 0 <= i < j < |images| && images[i].ready && images[j].ready ==>
      images[i].ordering != images[j].ordering
  }

  // The READY row at display position k has ordering k.
  ghost predicate Compact(images: seq<Image>) {
    forall k :: 0 <= k < |ReadyInOrder(images)| ==> images[ReadyInOrder(images)[k]].ordering == k
  }

  function Orderings(images: seq<Image>): set<nat> {
    set i | 0 <= i < |images| && images[i].ready :: images[i].ordering
  }

  lemma CompactPosition(images: seq<Image>, i: nat)
    requires Compact(images) && i in ReadySet(images)
    ensures images[i].ordering < |ReadyInOrder(images)| && ReadyInOrder(images)[images[i].ordering] == i
  {
    ReadyFacts(images);
    var ids := ReadyInOrder(images);
    assert i in ids;
    var k :| 0 <= k < |ids| && ids[k] == i;
  }

  // Compactness says that the READY orderings are exactly 0 .. n-1, one row each.
  lemma CompactOrderings(images: seq<Image>)
    requires Compact(images)
    ensures UniqueReady(images)
    ensures forall v :: v in Orderings(images) <==> 0 <= v < |ReadySet(images)|
  {
    var ids := ReadyInOrder(images);
    ReadyCount(images);
    forall i | i in ReadySet(images)
      ensures images[i].ordering < |ids| && ids[images[i].ordering] == i
    {
      CompactPosition(images, i);
    }
    forall i, j | 0 <= i < j < |images| && images[i].ready && images[j].ready
      ensures images[i].ordering != images[j].ordering
    {
      assert i in ReadySet(images) && j in ReadySet(images);
    }
    forall v | 0 <= v < |ids|
      ensures v in Orderings(images)
    {
      ReadyFacts(images);
      assert ids[v] in ids && ids[v] in ReadySet(images);
    }
    forall v | v in Orderings(images)
      ensures 0 <= v < |ids|
    {
      var i :| 0 <= i < |images| && images[i].ready && images[i].ordering == v;
      assert i in ReadySet(images);
    }
  }

  // Any listing of the READY ids whose orderings are their positions is the query's result.
  lemma CompactFrom(images: seq<Image>, ids: seq<nat>)
    requires ValidIds(images, ids) && forall x :: x in ids <==> x in ReadySet(images)
    requires forall k :: 0 <= k < |ids| ==> images[ids[k]].ordering == k
    ensures ReadyInOrder(images) == ids && Compact(images)
  {
    ReadyFacts(images);
    SortedUnique(images, ReadyInOrder(images), ids);
  }

  lemma EmptyTogether(s: seq<nat>, t: seq<nat>)
    requires forall x :: x in s <==> x in t
    ensures s == [] <==> t == []
  {
    if s != [] {
      assert s[0] in t;
    }
    if t != [] {
      assert t[0] in s;
    }
  }

  // Two ordered listings of the same rows with different orderings are equal.
  lemma {:induction false} SortedUnique(images: seq<Image>, s: seq<nat>, t: seq<nat>)
    requires ValidIds(images, s) && ValidIds(images, t) && Ordered(images, s) && Ordered(images, t)
    requires Distinct(s) && Distinct(t) && forall x :: x in s <==> x in t
    requires forall i, j :: 0 <= i < j < |t| ==> images[t[i]].ordering != images[t[j]].ordering
    ensures s == t
  {
    EmptyTogether(s, t);
    if t != [] {
      HeadsEqual(images, s, t);
      TailElements(s);
      TailElements(t);
      SortedUnique(images, s[1..], t[1..]);
      assert s == [s[0]] + s[1..] && t == [t[0]] + t[1..];
    }
  }

  lemma HeadsEqual(images: seq<Image>, s: seq<nat>, t: seq<nat>)
    requires s != [] && t != [] && ValidIds(images, s) && ValidIds(images, t) && Ordered(images, s)
      && Ordered(images, t)
    requires forall x :: x in s <==> x in t
    requires forall i, j :: 0 <= i < j < |t| ==> images[t[i]].ordering != images[t[j]].ordering
    ensures s[0] == t[0]
  {
    assert t[0] in s && s[0] in t;
    var i :| 0 <= i < |s| && s[i] == t[0];
    var j :| 0 <= j < |t| && t[j] == s[0];
    assert images[s[0]].ordering <= images[s[i]].ordering;
    assert images[t[0]].ordering <= images[t[j]].ordering;
  }

  lemma TailElements(s: seq<nat>)
    requires s != [] && Distinct(s)
    ensures Distinct(s[1..]) && forall x :: x in s[1..] <==> x in s && x != s[0]
  {
    forall x | x in s && x != s[0]
      ensures x in s[1..]
    {
      var i :| 0 <= i < |s| && s[i] == x;
      assert s[1..][i - 1] == x;
    }
  }

  // ---- row-by-row renumbering ----

  // Whether the unique constraint lets one row take an ordering.
  predicate Legal(images: seq<Image>, id: nat, ordering: nat)
    requires id < |images|
  {
    images[id].ready ==> forall i :: 0 <= i < |images| && i != id && images[i].ready ==> images[i].ordering != ordering
  }

  // The first k rows of ids renumbered base, base + 1, ...
  function Renumber(images: seq<Image>, ids: seq<nat>, base: nat, k: nat): (r: seq<Image>)
    requires ValidIds(images, ids) && k <= |ids|
    ensures |r| == |images|
  {
    if k == 0 then images
    else
      var before := Renumber(images, ids, base, k - 1);
      before[ids[k - 1] := before[ids[k - 1]].(ordering := base + k - 1)]
  }

  lemma RenumberNext(images: seq<Image>, ids: seq<nat>, base: nat, k: nat)
    requires ValidIds(images, ids) && k < |ids|
    ensures var before := Renumber(images, ids, base, k);
      Renumber(images, ids, base, k + 1) == before[ids[k] := before[ids[k]].(ordering := base + k)]
  {
  }

  lemma {:induction false} RenumberFacts(images: seq<Image>, ids: seq<nat>, base: nat, k: nat)
    requires ValidIds(images, ids) && k <= |ids| && Distinct(ids)
    ensures var r := Renumber(images, ids, base, k);
      && (forall i :: 0 <= i < k ==> r[ids[i]] == images[ids[i]].(ordering := base + i))
      && (forall i :: k <= i < |ids| ==> r[ids[i]] == images[ids[i]])
      && (forall x :: 0 <= x < |images| && x !in ids ==> r[x] == images[x])
      && (forall x :: 0 <= x < |images| ==> r[x] == images[x].(ordering := r[x].ordering))
  {
    if k > 0 {
      RenumberFacts(images, ids, base, k - 1);
      assert ids[k - 1] in ids;
    }
  }

  lemma RenumberReady(images: seq<Image>, ids: seq<nat>, base: nat, k: nat)
    requires ValidIds(images, ids) && k <= |ids| && Distinct(ids)
    ensures ReadySet(Renumber(images, ids, base, k)) == ReadySet(images)
  {
    RenumberFacts(images, ids, base, k);
  }

  // Moving every READY row past the end: no single write meets another row.
  lemma FirstPhaseLegal(images: seq<Image>, ids: seq<nat>, k: nat)
    requires ValidIds(images, ids) && Distinct(ids) && k < |ids|
    requires (forall x :: x in ids <==> x in ReadySet(images)) && forall x :: x in ids ==> images[x].ordering < |ids|
    ensures Legal(Renumber(images, ids, |ids|, k), ids[k], |ids| + k)
  {
    RenumberFacts(images, ids, |ids|, k);
    var r := Renumber(images, ids, |ids|, k);
    forall i | 0 <= i < |r| && i != ids[k] && r[i].ready
      ensures r[i].ordering != |ids| + k
    {
      assert images[i].ready && i in ids;
      var j :| 0 <= j < |ids| && ids[j] == i;
    }
  }

  // Numbering rows 0, 1, ... when each still unnumbered row holds at least its
  // new number and more than all earlier ones: no single write meets another row.
  lemma SecondPhaseLegal(images: seq<Image>, ids: seq<nat>, k: nat)
    requires ValidIds(images, ids) && Distinct(ids) && k < |ids|
    requires forall x :: x in ids <==> x in ReadySet(images)
    requires forall i, j :: 0 <= i < j < |ids| ==> images[ids[i]].ordering < images[ids[j]].ordering
    ensures Legal(Renumber(images, ids, 0, k), ids[k], k)
  {
    RenumberFacts(images, ids, 0, k);
    var r := Renumber(images, ids, 0, k);
    forall i | 0 <= i < |r| && i != ids[k] && r[i].ready
      ensures r[i].ordering != k
    {
      assert images[i].ready && i in ids;
      var j :| 0 <= j < |ids| && ids[j] == i;
      if j > k {
        Climbs(images, ids, j);
      }
    }
  }

  lemma {:induction false} Climbs(images: seq<Image>, ids: seq<nat>, j: nat)
    requires ValidIds(images, ids) && j < |ids|
    requires forall a, b :: 0 <= a < b < |ids| ==> images[ids[a]].ordering < images[ids[b]].ordering
    ensures images[ids[j]].ordering >= j
  {
    if j > 0 {
      Climbs(images, ids, j - 1);
    }
  }

  // ---- the three services that touch orderings ----

  function Uploaded(images: seq<Image>): seq<Image> {
    var ids := ReadyInOrder(images);
    var next := if ids == [] then 0 else images[ids[|ids| - 1]].ordering + 1;
    images + [Image(next, true, PendingReview, "")]
  }

  // The request a reorder accepts: the READY ids as a set, and as many of them.
  predicate CompleteOrder(images: seq<Image>, ids: seq<nat>) {
    Elements(ids) == ReadySet(images) && |ids| == |ReadyInOrder(images)|
  }

  function Reordered(images: seq<Image>, ids: seq<nat>): seq<Image>
    requires ValidIds(images, ids)
  {
    Renumber(Renumber(images, ids, |ids|, |ids|), ids, 0, |ids|)
  }

  function Hidden(images: seq<Image>, id: nat): seq<Image>
    requires id < |images|
  {
    images[id := images[id].(ready := false)]
  }

  function Deleted(images: seq<Image>, id: nat): seq<Image>
    requires id < |images|
  {
    var left := Hidden(images, id);
    Renumber(left, ReadyInOrder(left), 0, |ReadyInOrder(left)|)
  }

  lemma CompleteOrderIsPermutation(images: seq<Image>, ids: seq<nat>)
    requires CompleteOrder(images, ids)
    ensures Distinct(ids) && ValidIds(images, ids) && forall x :: x in ids <==> x in ReadySet(images)
  {
    ReadyCount(images);
    DistinctCount(ids);
    assert forall x :: x in ids <==> x in Elements(ids);
    assert forall i :: 0 <= i < |ids| ==> ids[i] in ids;
  }

  // After a reorder the image at position k is the k-th requested, and nothing
  // but orderings changed.
  lemma ReorderedFacts(images: seq<Image>, ids: seq<nat>)
    requires CompleteOrder(images, ids)
    ensures ValidIds(images, ids)
    ensures var r := Reordered(images, ids);
      && Compact(r) && ReadyInOrder(r) == ids && |r| == |images| && ReadySet(r) == ReadySet(images)
      && forall x :: 0 <= x < |images| ==> r[x] == images[x].(ordering := r[x].ordering)
  {
    CompleteOrderIsPermutation(images, ids);
    var mid := Renumber(images, ids, |ids|, |ids|);
    RenumberFacts(images, ids, |ids|, |ids|);
    RenumberFacts(mid, ids, 0, |ids|);
    RenumberReady(images, ids, |ids|, |ids|);
    RenumberReady(mid, ids, 0, |ids|);
    CompactFrom(Reordered(images, ids), ids);
  }

  // Every one of the 2n row updates of a reorder respects the unique constraint.
  lemma ReorderWritesLegal(images: seq<Image>, ids: seq<nat>, k: nat)
    requires Compact(images) && CompleteOrder(images, ids) && k < |ids|
    ensures ValidIds(images, ids)
    ensures Legal(Renumber(images, ids, |ids|, k), ids[k], |ids| + k)
    ensures Legal(Renumber(Renumber(images, ids, |ids|, |ids|), ids, 0, k), ids[k], k)
  {
    CompleteOrderIsPermutation(images, ids);
    CompactOrderings(images);
    ReadyFacts(images);
    forall x | x in ids
      ensures images[x].ordering < |ids|
    {
      CompactPosition(images, x);
    }
    FirstPhaseLegal(images, ids, k);
    var mid := Renumber(images, ids, |ids|, |ids|);
    RenumberFacts(images, ids, |ids|, |ids|);
    RenumberReady(images, ids, |ids|, |ids|);
    SecondPhaseLegal(mid, ids, k);
  }

  lemma HiddenOrder(images: seq<Image>, id: nat)
    requires Compact(images) && id < |images| && images[id].ready
    ensures var left := Hidden(images, id);
      var ids := ReadyInOrder(left);
      && Distinct(ids) && (forall x :: x in ids <==> x in ReadySet(images) && x != id)
      && ReadySet(left) == ReadySet(images) - {id}
      && forall i, j :: 0 <= i < j < |ids| ==> left[ids[i]].ordering < left[ids[j]].ordering
  {
    var left := Hidden(images, id);
    ReadyFacts(left);
    CompactOrderings(images);
    var ids := ReadyInOrder(left);
    forall i, j | 0 <= i < j < |ids|
      ensures left[ids[i]].ordering < left[ids[j]].ordering
    {
      assert ids[i] in ids && ids[j] in ids;
    }
  }

  // Every row update of the compaction after a delete respects the unique constraint.
  lemma DeleteWritesLegal(images: seq<Image>, id: nat, k: nat)
    requires Compact(images) && id < |images| && images[id].ready
    requires k < |ReadyInOrder(Hidden(images, id))|
    ensures var left := Hidden(images, id);
      Legal(Renumber(left, ReadyInOrder(left), 0, k), ReadyInOrder(left)[k], k)
  {
    HiddenOrder(images, id);
    SecondPhaseLegal(Hidden(images, id), ReadyInOrder(Hidden(images, id)), k);
  }

  // A delete removes one image and keeps the others compact in their order.
  lemma DeletedFacts(images: seq<Image>, id: nat)
    requires Compact(images) && id < |images| && images[id].ready
    ensures var r := Deleted(images, id);
      && Compact(r) && |r| == |images| && ReadySet(r) == ReadySet(images) - {id}
      && ReadyInOrder(r) == ReadyInOrder(Hidden(images, id))
      && (forall x :: 0 <= x < |images| && x != id ==> r[x] == images[x].(ordering := r[x].ordering))
  {
    HiddenOrder(images, id);
    var left := Hidden(images, id);
    var ids := ReadyInOrder(left);
    RenumberFacts(left, ids, 0, |ids|);
    RenumberReady(left, ids, 0, |ids|);
    CompactFrom(Deleted(images, id), ids);
  }

  // An upload adds one image after all others.
  lemma UploadedFacts(images: seq<Image>)
    requires Compact(images)
    ensures var r := Uploaded(images);
      && Compact(r) && ReadyInOrder(r) == ReadyInOrder(images) + [|images|]
      && r == images + [Image(|ReadyInOrder(images)|, true, PendingReview, "")]
  {
    ReadyFacts(images);
    var r := Uploaded(images);
    var ids := ReadyInOrder(images) + [|images|];
    forall x
      ensures x in ids <==> x in ReadySet(r)
    {
      assert x in ids <==> x in ReadyInOrder(images) || x == |images|;
    }
    CompactFrom(r, ids);
  }
}
