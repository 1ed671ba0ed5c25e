/**
 * The categorisation loop of process_images_and_generate_pdf
 * (process_warbands.py lines 137-152): each (image, name) pair goes to the
 * first bucket whose test its lower-cased name passes, "dedicated" before
 * "inspired" before the default bucket, and each bucket keeps input order.
 */
module Categorize {
  import opened Pdf

  /** The three buckets of lines 138-140. */
  datatype Bucket = Dedicated | Inspired | Other

  /** The keywords of line 146 that send an image to the dedicated bucket. */
  const DedicatedKeywords: seq<string> := ["0", "order", "destruction", "death", "chaos"]

  /** The keyword of line 149 that sends an image to the inspired bucket. */
  const InspiredKeyword: string := "inspired"

  /** `str.lower()` on one character, for the ASCII letters. */
  function LowerChar(c: char): char
  {
    if 'A' <= c <= 'Z' then (c as int - 'A' as int + 'a' as int) as char else c
  }

  /** `name.lower()` (line 143), character by character. */
  function ToLower(s: string): (r: string)
    ensures |r| == |s|
    ensures forall i :: 0 <= i < |s| ==> r[i] == LowerChar(s[i])
  {
    seq(|s|, i requires 0 <= i < |s| => LowerChar(s[i]))
  }

  /** Lower-casing twice is lower-casing once, and no upper-case ASCII letter survives it. */
  lemma ToLowerIdempotent(s: string)
    ensures ToLower(ToLower(s)) == ToLower(s)
    ensures forall i :: 0 <= i < |s| ==> !('A' <= ToLower(s)[i] <= 'Z')
  {
  }

  /** `k` occurs in `s` starting at index `i`. */
  predicate OccursAt(k: string, s: string, i: nat)
  {
    i + |k| <= |s| && s[i .. i + |k|] == k
  }

  /** Python's `k in s` on strings: `k` occurs in `s` as a contiguous piece. */
  ghost predicate Occurs(k: string, s: string)
  {
    exists i: nat :: OccursAt(k, s, i)
  }

  /** An occurrence is either at the front or in the tail. */
  lemma OccursStep(k: string, s: string)
    requires |k| <= |s| && s != []
    ensures Occurs(k, s) <==> (s[..|k|] == k || Occurs(k, s[1..]))
  {
    if Occurs(k, s) {
      var i: nat :| OccursAt(k, s, i);
      if i > 0 {
        assert s[1..][i - 1 .. i - 1 + |k|] == s[i .. i + |k|];
        assert OccursAt(k, s[1..], i - 1);
      }
    }
    if s[..|k|] == k {
      assert OccursAt(k, s, 0);
    }
    if Occurs(k, s[1..]) {
      var j: nat :| OccursAt(k, s[1..], j);
      assert s[j + 1 .. j + 1 + |k|] == s[1..][j .. j + |k|];
      assert OccursAt(k, s, j + 1);
    }
  }

  /** The substring test `k in s`, scanning from the front. */
  function Contains(s: string, k: string): (b: bool)
    ensures b <==> Occurs(k, s)
    decreases |s|
  {
    if |k| > |s| then false
    else if s[..|k|] == k then
      assert OccursAt(k, s, 0);
      true
    else
      OccursStep(k, s);
      Contains(s[1..], k)
  }

  /** `any(keyword in s for keyword in ks)`. */
  function ContainsAny(s: string, ks: seq<string>): (b: bool)
    ensures b <==> exists j :: 0 <= j < |ks| && Occurs(ks[j], s)
  {
    if ks == [] then false
    else if Contains(s, ks[0]) then true
    else
      assert forall j :: 1 <= j < |ks| ==> ks[j] == ks[1..][j - 1];
      ContainsAny(s, ks[1..])
  }

  /** Some dedicated keyword occurs in the lower-cased name. */
  ghost predicate IsDedicatedName(name: string)
  {
    exists j :: 0 <= j < |DedicatedKeywords| && Occurs(DedicatedKeywords[j], ToLower(name))
  }

  /**
   * The bucket an image with this name goes to: dedicated when a dedicated
   * keyword occurs in the lower-cased name, otherwise inspired when
   * "inspired" occurs in it, otherwise the default bucket.
   */
  function BucketOf(name: string): (b: Bucket)
    ensures b == Dedicated <==> IsDedicatedName(name)
    ensures b == Inspired <==> !IsDedicatedName(name) && Occurs(InspiredKeyword, ToLower(name))
    ensures b == Other <==> !IsDedicatedName(name) && !Occurs(InspiredKeyword, ToLower(name))
  {
    var lowerName := ToLower(name);
    if ContainsAny(lowerName, DedicatedKeywords) then Dedicated
    else if Contains(lowerName, InspiredKeyword) then Inspired
    else Other
  }

  /** Lower-casing works piece by piece: the lower-cased concatenation is the concatenation of the lower-cased parts. */
  lemma ToLowerAppend(a: string, b: string)
    ensures ToLower(a + b) == ToLower(a) + ToLower(b)
  {
  }

  /** A string is its own lower-cased form exactly when it holds no upper-case ASCII letter. */
  lemma ToLowerFixedPoints(s: string)
    ensures ToLower(s) == s <==> forall i :: 0 <= i < |s| ==> !('A' <= s[i] <= 'Z')
  {
    if ToLower(s) == s {
      forall i | 0 <= i < |s|
        ensures !('A' <= s[i] <= 'Z')
      {
        assert ToLower(s)[i] == s[i];
      }
    }
  }

  /** The test is case-insensitive: a name and its lower-cased form go to the same bucket. */
  lemma BucketIgnoresCase(name: string)
    ensures BucketOf(ToLower(name)) == BucketOf(name)
  {
    ToLowerIdempotent(name);
  }

  /** A name holding a dedicated keyword goes to the dedicated bucket even when it also says "inspired". */
  lemma DedicatedWins(name: string, j: nat, i: nat)
    requires j < |DedicatedKeywords| && i + |DedicatedKeywords[j]| <= |name|
    requires ToLower(name)[i .. i + |DedicatedKeywords[j]|] == DedicatedKeywords[j]
    ensures BucketOf(name) == Dedicated
  {
    assert OccursAt(DedicatedKeywords[j], ToLower(name), i);
  }

  /** Any digit 0 in a name makes it dedicated, "inspired" or not. */
  lemma ZeroMakesDedicated(name: string, i: nat)
    requires i < |name| && name[i] == '0'
    ensures BucketOf(name) == Dedicated
  {
    assert ToLower(name)[i .. i + 1] == "0";
    DedicatedWins(name, 0, i);
  }

  /** "Inspired Chaos Knight" is dedicated: "chaos" decides, whatever the case. */
  lemma InspiredChaosIsDedicated()
    ensures BucketOf("Inspired Chaos Knight") == Dedicated
  {
    var name := "Inspired Chaos Knight";
    assert ToLower(name)[9 .. 14] == "chaos";
    DedicatedWins(name, 4, 9);
  }

  /** The items of one bucket, in input order. */
  function Filter(items: seq<Item>, b: Bucket): seq<Item>
  {
    if items == [] then []
    else
      var last := items[|items| - 1];
      Filter(items[..|items| - 1], b) + (if BucketOf(last.name) == b then [last] else [])
  }

  /** Filtering a concatenation filters each part: the order within a bucket is the input order. */
  lemma {:induction false} FilterAppend(a: seq<Item>, c: seq<Item>, b: Bucket)
    ensures Filter(a + c, b) == Filter(a, b) + Filter(c, b)
    decreases |c|
  {
    if c == [] {
      assert a + c == a;
    } else {
      var last := c[|c| - 1];
      assert (a + c)[..|a + c| - 1] == a + c[..|c| - 1];
      assert (a + c)[|a + c| - 1] == last;
      FilterAppend(a, c[..|c| - 1], b);
    }
  }

  /** An item is in a bucket exactly when it is one of the items and its name selects that bucket. */
  lemma {:induction false} FilterMembers(items: seq<Item>, b: Bucket, x: Item)
    ensures x in Filter(items, b) <==> x in items && BucketOf(x.name) == b
    decreases |items|
  {
    if items != [] {
      var init, last := items[..|items| - 1], items[|items| - 1];
      FilterMembers(init, b, x);
      assert items == init + [last];
    }
  }

  /**
   * Every item lands in exactly one bucket: the three buckets together hold
   * the items with their multiplicities.
   */
  lemma {:induction false} FilterPartition(items: seq<Item>)
    ensures multiset(Filter(items, Dedicated)) + multiset(Filter(items, Inspired)) + multiset(Filter(items, Other))
         == multiset(items)
    ensures |Filter(items, Dedicated)| + |Filter(items, Inspired)| + |Filter(items, Other)| == |items|
    decreases |items|
  {
    if items != [] {
      var init, last := items[..|items| - 1], items[|items| - 1];
      FilterPartition(init);
      assert items == init + [last];
      FilterSnoc(init, last, Dedicated);
      FilterSnoc(init, last, Inspired);
      FilterSnoc(init, last, Other);
      PartitionSnoc(Filter(init, Dedicated), Filter(init, Inspired), Filter(init, Other), init, last,
                    BucketOf(last.name));
    }
  }

  /** Three buckets partitioning `init` still partition it once `x` joins the bucket `b`. */
  lemma PartitionSnoc(d: seq<Item>, i: seq<Item>, o: seq<Item>, init: seq<Item>, x: Item, b: Bucket)
    requires multiset(d) + multiset(i) + multiset(o) == multiset(init) && |d| + |i| + |o| == |init|
    ensures var d2 := d + (if b == Dedicated then [x] else []);
      var i2 := i + (if b == Inspired then [x] else []);
      var o2 := o + (if b == Other then [x] else []);
      && multiset(d2) + multiset(i2) + multiset(o2) == multiset(init + [x])
      && |d2| + |i2| + |o2| == |init + [x]|
  {
  }

  /** Appending an item extends its own bucket by it and leaves the others as they were. */
  lemma FilterSnoc(a: seq<Item>, x: Item, b: Bucket)
    ensures Filter(a + [x], b) == Filter(a, b) + (if BucketOf(x.name) == b then [x] else [])
  {
    assert (a + [x])[..|a + [x]| - 1] == a;
  }

  /** The bitmaps of the three buckets together are those of the items. */
  lemma {:induction false} FilterPartitionImages(items: seq<Item>)
    ensures multiset(Images(Filter(items, Dedicated))) + multiset(Images(Filter(items, Inspired)))
          + multiset(Images(Filter(items, Other))) == multiset(Images(items))
    decreases |items|
  {
    if items != [] {
      var init, last := items[..|items| - 1], items[|items| - 1];
      FilterPartitionImages(init);
      assert items == init + [last];
      ImagesSnoc(init, last);
      FilterImagesSnoc(init, last, Dedicated);
      FilterImagesSnoc(init, last, Inspired);
      FilterImagesSnoc(init, last, Other);
    }
  }

  lemma ImagesSnoc(a: seq<Item>, x: Item)
    ensures multiset(Images(a + [x])) == multiset(Images(a)) + multiset{x.img}
  {
    ImagesSplit(a, [x]);
  }

  /** Appending an item adds its bitmap to its own bucket and to no other. */
  lemma FilterImagesSnoc(a: seq<Item>, x: Item, b: Bucket)
    ensures multiset(Images(Filter(a + [x], b)))
         == multiset(Images(Filter(a, b))) + (if BucketOf(x.name) == b then multiset{x.img} else multiset{})
  {
    assert (a + [x])[..|a + [x]| - 1] == a;
    if BucketOf(x.name) == b {
      ImagesSnoc(Filter(a, b), x);
    } else {
      assert Filter(a + [x], b) == Filter(a, b) + [];
      assert Filter(a + [x], b) == Filter(a, b);
    }
  }

  /**
   * The loop of lines 142-152: each pair is appended to the first bucket
   * whose test its lower-cased name passes.
   */
  method CategorizeImages(imagesWithNames: seq<Item>) returns (dedicated: seq<Item>, inspired: seq<Item>, other: seq<Item>)
    ensures dedicated == Filter(imagesWithNames, Dedicated)
    ensures inspired == Filter(imagesWithNames, Inspired)
    ensures other == Filter(imagesWithNames, Other)
  {
    dedicated, inspired, other := [], [], [];
    var i := 0;
    while i < |imagesWithNames|
      invariant 0 <= i <= |imagesWithNames|
      invariant dedicated == Filter(imagesWithNames[..i], Dedicated)
      invariant inspired == Filter(imagesWithNames[..i], Inspired)
      invariant other == Filter(imagesWithNames[..i], Other)
    {
      var item := imagesWithNames[i];
      var lowerName := ToLower(item.name);
      if ContainsAny(lowerName, DedicatedKeywords) {
        dedicated := dedicated + [item];
      } else if Contains(lowerName, InspiredKeyword) {
        inspired := inspired + [item];
      } else {
        other := other + [item];
      }
      assert imagesWithNames[..i + 1][..i] == imagesWithNames[..i];
      i := i + 1;
    }
    assert imagesWithNames[..i] == imagesWithNames;
  }
}
