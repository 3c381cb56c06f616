/** The map-reduce word count: partitioning, map tasks, reduce tasks and the final merge. */
module MapReduce {
  import opened WordCount

  /** A document, lowered and split by `map_function`: a list of words, none of them empty. */
  type Document = d: seq<string> | "" !in d witness []

  /** The tokens of some documents, in order. */
  function Tokens(docs: seq<Document>): seq<string> {
    if docs == [] then [] else Tokens(docs[..|docs| - 1]) + docs[|docs| - 1]
  }

  /** The bucket of a word: the code of its first letter, modulo the number of partitions. */
  function BucketOf(w: string, n: nat): (i: nat)
    requires 0 < n
    ensures i < n
  {
    if w == "" then 0 else w[0] as int % n
  }

  /** Each token of bucket `i`, with count one. */
  function Bucket(tokens: seq<string>, n: nat, i: nat): seq<Item>
    requires 0 < n
  {
    if tokens == [] then []
    else
      var last := tokens[|tokens| - 1];
      Bucket(tokens[..|tokens| - 1], n, i) + if BucketOf(last, n) == i then [Item(last, 1)] else []
  }

  lemma {:induction false} BucketTally(tokens: seq<string>, n: nat, i: nat, w: string)
    requires 0 < n
    ensures Tally(Bucket(tokens, n, i), w) == if BucketOf(w, n) == i then Occurrences(tokens, w) else 0
    ensures Positive(Bucket(tokens, n, i))
  {
    hide BucketOf;
    if tokens != [] {
      var last := tokens[|tokens| - 1];
      BucketTally(tokens[..|tokens| - 1], n, i, w);
      TallyAppend(Bucket(tokens[..|tokens| - 1], n, i), if BucketOf(last, n) == i then [Item(last, 1)] else [], w);
      OneTally(Item(last, 1), w);
    }
  }

  lemma {:induction false} TokensNonEmpty(docs: seq<Document>)
    ensures "" !in Tokens(docs)
  {
    if docs != [] {
      TokensNonEmpty(docs[..|docs| - 1]);
    }
  }

  /** The members of a bucket, by the codes of first letters. */
  lemma {:induction false} BucketExactly(tokens: seq<string>, n: nat, i: nat)
    requires 0 < n && "" !in tokens
    ensures forall k :: 0 <= k < |Bucket(tokens, n, i)| ==> Bucket(tokens, n, i)[k].count == 1
    ensures forall k :: 0 <= k < |Bucket(tokens, n, i)| ==> Bucket(tokens, n, i)[k].word != ""
    ensures forall k :: 0 <= k < |Bucket(tokens, n, i)| ==> i == Bucket(tokens, n, i)[k].word[0] as int % n
    ensures forall w :: w in tokens && i == w[0] as int % n ==> Item(w, 1) in Bucket(tokens, n, i)
  {
    if tokens != [] {
      var last := tokens[|tokens| - 1];
      BucketExactly(tokens[..|tokens| - 1], n, i);
      assert tokens == tokens[..|tokens| - 1] + [last];
    }
  }

  // ------------------------------------------------------------ the tasks

  /** `apply_map`: one list per bucket. */
  method ApplyMap(docs: seq<Document>, n: nat) returns (lists: seq<seq<Item>>)
    requires 0 < n
    ensures |lists| == n && forall i :: 0 <= i < n ==> lists[i] == Bucket(Tokens(docs), n, i)
    ensures forall i, k :: 0 <= i < n && 0 <= k < |lists[i]| ==>
      lists[i][k].count == 1 && lists[i][k].word != "" && i == lists[i][k].word[0] as int % n
    ensures forall w :: w in Tokens(docs) ==> w != "" && Item(w, 1) in lists[w[0] as int % n]
  {
    lists := seq(n, i => []);
    for d := 0 to |docs|
      invariant |lists| == n && forall i :: 0 <= i < n ==> lists[i] == Bucket(Tokens(docs[..d]), n, i)
    {
      var words := docs[d];
      ghost var before := Tokens(docs[..d]);
      assert before + words[..0] == before;
      for k := 0 to |words|
        invariant |lists| == n && forall i :: 0 <= i < n ==> lists[i] == Bucket(before + words[..k], n, i)
      {
        var b := words[k][0] as int % n;
        assert (before + words[..k + 1])[..|before| + k] == before + words[..k];
        lists := lists[b := lists[b] + [Item(words[k], 1)]];
      }
      assert words[..|words|] == words && docs[..d + 1][..d] == docs[..d];
    }
    assert docs[..|docs|] == docs;
    TokensNonEmpty(docs);
    forall i | 0 <= i < n
      ensures forall k :: 0 <= k < |lists[i]| ==>
        lists[i][k].count == 1 && lists[i][k].word != "" && i == lists[i][k].word[0] as int % n
      ensures forall w :: w in Tokens(docs) && i == w[0] as int % n ==> Item(w, 1) in lists[i]
    {
      BucketExactly(Tokens(docs), n, i);
    }
  }

  /** `apply_reduce`: the dictionary adds up all lists. */
  method ApplyReduce(lists: seq<seq<Item>>) returns (wc: Counts)
    requires forall p :: 0 <= p < |lists| ==> Positive(lists[p])
    ensures Sums(wc, lists)
  {
    hide Sums, TallyAll;
    wc := map[];
    ghost var seen := NothingSeen(|lists|);
    EmptySums(|lists|);
    for p := 0 to |lists|
      invariant |seen| == |lists| && Sums(wc, seen)
      invariant forall q :: 0 <= q < |lists| ==> seen[q] == if q < p then lists[q] else []
    {
      for k := 0 to |lists[p]|
        invariant |seen| == |lists| && Sums(wc, seen)
        invariant forall q :: 0 <= q < |lists| ==>
          seen[q] == if q < p then lists[q] else if q == p then lists[p][..k] else []
      {
        var item := lists[p][k];
        assert item in lists[p];
        ghost var before := wc;
        if item.word !in wc {
          wc := wc[item.word := 0];
        }
        wc := wc[item.word := wc[item.word] + item.count];
        assert wc == Add(before, item);
        SumsAdd(before, seen, p, item);
        seen := seen[p := seen[p] + [item]];
      }
    }
    assert seen == lists;
  }

  // ------------------------------------------------------------ the driver

  /** Where partition `p` begins: `p * chunk`, see StartIsProduct. */
  function Start(p: nat, chunk: nat): nat {
    if p == 0 then 0 else Start(p - 1, chunk) + chunk
  }

  lemma {:induction false} StartIsProduct(p: nat, chunk: nat)
    ensures Start(p, chunk) == p * chunk
  {
    if p != 0 {
      StartIsProduct(p - 1, chunk);
      assert p * chunk == (p - 1) * chunk + chunk;
    }
  }

  lemma {:induction false} StartGrows(p: nat, n: nat, chunk: nat)
    requires p <= n
    ensures Start(p, chunk) <= Start(n, chunk)
  {
    if p < n {
      StartGrows(p, n - 1, chunk);
    }
  }

  /** The documents of partition `p`. */
  function Partition(corpus: seq<Document>, chunk: nat, p: nat): seq<Document>
    requires Start(p, chunk) + chunk <= |corpus|
  {
    corpus[Start(p, chunk)..Start(p, chunk) + chunk]
  }

  /** What the reduce task of bucket `i` is given. */
  ghost predicate ReduceInput(lists: seq<seq<Item>>, corpus: seq<Document>, n: nat, chunk: nat, i: nat)
    requires 0 < n
  {
    forall p :: 0 <= p < |lists| ==>
      Start(p, chunk) + chunk <= |corpus| && lists[p] == Bucket(Tokens(Partition(corpus, chunk, p)), n, i)
  }

  lemma {:induction false} TokensAppend(docs: seq<Document>, more: seq<Document>)
    ensures Tokens(docs + more) == Tokens(docs) + Tokens(more)
  {
    if more == [] {
      assert docs + more == docs;
    } else {
      var k := |more| - 1;
      assert (docs + more)[..|docs + more| - 1] == docs + more[..k];
      TokensAppend(docs, more[..k]);
    }
  }

  /** A reduce task counts exactly the words of its bucket in the partitions it is given. */
  lemma {:induction false} ReduceCounts(lists: seq<seq<Item>>, corpus: seq<Document>, n: nat, chunk: nat,
                                        i: nat, w: string)
    requires 0 < n && ReduceInput(lists, corpus, n, chunk, i)
    ensures Start(|lists|, chunk) <= |corpus|
    ensures TallyAll(lists, w)
         == if BucketOf(w, n) == i then Occurrences(Tokens(corpus[..Start(|lists|, chunk)]), w) else 0
  {
    hide BucketOf, Bucket, Tally, Partition;
    if lists == [] {
      assert corpus[..0] == [] && Tokens([]) == [];
    } else {
      var p := |lists| - 1;
      ReduceCounts(lists[..p], corpus, n, chunk, i, w);
      assert Start(p, chunk) + chunk <= |corpus| && lists[p] == Bucket(Tokens(Partition(corpus, chunk, p)), n, i);
      BucketTally(Tokens(Partition(corpus, chunk, p)), n, i, w);
      OneMore(corpus, chunk, p, w);
    }
  }

  lemma OneMore(corpus: seq<Document>, chunk: nat, p: nat, w: string)
    requires Start(p, chunk) + chunk <= |corpus|
    ensures Start(p + 1, chunk) == Start(p, chunk) + chunk
    ensures Occurrences(Tokens(corpus[..Start(p, chunk) + chunk]), w)
         == Occurrences(Tokens(corpus[..Start(p, chunk)]), w) + Occurrences(Tokens(Partition(corpus, chunk, p)), w)
  {
    hide Occurrences, Tokens;
    var docs, more := corpus[..Start(p, chunk)], Partition(corpus, chunk, p);
    assert corpus[..Start(p, chunk) + chunk] == docs + more;
    TokensAppend(docs, more);
    OccurrencesAppend(Tokens(docs), Tokens(more), w);
  }

  /** The output of reduce task `i`. */
  ghost predicate Output(wc: Counts, tokens: seq<string>, n: nat, i: nat)
    requires 0 < n
  {
    forall w :: (w in wc <==> BucketOf(w, n) == i && w in tokens) && (w in wc ==> wc[w] == Occurrences(tokens, w))
  }

  lemma SumsOutput(wc: Counts, lists: seq<seq<Item>>, corpus: seq<Document>, n: nat, chunk: nat, i: nat)
    requires 0 < n && |lists| == n && ReduceInput(lists, corpus, n, chunk, i) && Sums(wc, lists)
    ensures Start(n, chunk) <= |corpus| && Output(wc, Tokens(corpus[..Start(n, chunk)]), n, i)
  {
    hide ReduceInput, BucketOf, TallyAll, Tokens;
    ReduceCounts(lists, corpus, n, chunk, i, "");
    var tokens := Tokens(corpus[..Start(n, chunk)]);
    forall w
      ensures (w in wc <==> BucketOf(w, n) == i && w in tokens) && (w in wc ==> wc[w] == Occurrences(tokens, w))
    {
      ReduceCounts(lists, corpus, n, chunk, i, w);
      OccurrencesPositive(tokens, w);
      assert Get(wc, w) == TallyAll(lists, w);
    }
  }

  lemma ChunkFits(length: nat, n: nat, p: nat)
    requires 0 < n && p < n
    ensures Start(p, length / n) + length / n <= Start(n, length / n) == n * (length / n) <= length
  {
    StartGrows(p + 1, n, length / n);
    StartIsProduct(n, length / n);
  }

  /** The merged counts of the first `i` outputs. */
  ghost predicate Merged(counts: Counts, tokens: seq<string>, n: nat, i: nat)
    requires 0 < n
  {
    forall w :: (w in counts <==> BucketOf(w, n) < i && w in tokens)
      && (w in counts ==> counts[w] == Occurrences(tokens, w))
  }

  /**
   * The whole program. The partitions cover the first `n * chunk` documents; the remainder is dropped, as in the
   * source. Every word reaches exactly one reduce task, and the merge loses nothing.
   */
  method CountWords(corpus: seq<Document>, n: nat) returns (counts: Counts)
    requires 0 < n
    ensures n * (|corpus| / n) <= |corpus|
    ensures counts == SequentialCount(Tokens(corpus[..n * (|corpus| / n)]))
  {
    hide Bucket, BucketOf, Tokens, Sums, Output, Occurrences, Start;
    var chunk := |corpus| / n;
    ChunkFits(|corpus|, n, 0);
    var mapResults := MapAll(corpus, n, chunk);
    ghost var tokens := Tokens(corpus[..Start(n, chunk)]);
    counts := map[];
    for i := 0 to n
      invariant Merged(counts, tokens, n, i)
    {
      var output := ReduceBucket(mapResults, corpus, n, chunk, i);
      MergeOne(counts, output, tokens, n, i);
      counts := counts + output;
    }
    MergedIsAll(counts, tokens, n);
  }

  /** One map task per partition. */
  method MapAll(corpus: seq<Document>, n: nat, chunk: nat) returns (mapResults: seq<seq<seq<Item>>>)
    requires 0 < n && chunk == |corpus| / n
    ensures |mapResults| == n
    ensures forall p :: 0 <= p < n ==> Start(p, chunk) + chunk <= |corpus| && Mapped(mapResults[p], corpus, n, chunk, p)
  {
    hide Mapped, Bucket, Tokens, Start;
    mapResults := [];
    for p := 0 to n
      invariant |mapResults| == p
      invariant forall q :: 0 <= q < p ==>
        Start(q, chunk) + chunk <= |corpus| && Mapped(mapResults[q], corpus, n, chunk, q)
    {
      ChunkFits(|corpus|, n, p);
      PartitionIsSlice(corpus, chunk, p);
      var lists := ApplyMap(corpus[p * chunk..(p + 1) * chunk], n);
      IsMapped(lists, corpus, n, chunk, p);
      mapResults := mapResults + [lists];
    }
  }

  lemma PartitionIsSlice(corpus: seq<Document>, chunk: nat, p: nat)
    requires Start(p, chunk) + chunk <= |corpus|
    ensures 0 <= p * chunk <= (p + 1) * chunk <= |corpus|
    ensures corpus[p * chunk..(p + 1) * chunk] == Partition(corpus, chunk, p)
  {
    StartIsProduct(p, chunk);
    StartIsProduct(p + 1, chunk);
  }

  lemma IsMapped(lists: seq<seq<Item>>, corpus: seq<Document>, n: nat, chunk: nat, p: nat)
    requires 0 < n && Start(p, chunk) + chunk <= |corpus|
    requires |lists| == n && forall i :: 0 <= i < n ==> lists[i] == Bucket(Tokens(Partition(corpus, chunk, p)), n, i)
    ensures Mapped(lists, corpus, n, chunk, p)
  {
  }

  ghost predicate Mapped(lists: seq<seq<Item>>, corpus: seq<Document>, n: nat, chunk: nat, p: nat)
    requires 0 < n && Start(p, chunk) + chunk <= |corpus|
  {
    |lists| == n && forall i :: 0 <= i < n ==> lists[i] == Bucket(Tokens(Partition(corpus, chunk, p)), n, i)
  }

  /** The reduce task of bucket `i`, on the lists that all map tasks have made for it. */
  method ReduceBucket(mapResults: seq<seq<seq<Item>>>, ghost corpus: seq<Document>, n: nat,
                      ghost chunk: nat, i: nat)
    returns (output: Counts)
    requires 0 < n && |mapResults| == n && i < n
    requires forall p :: 0 <= p < n ==>
      Start(p, chunk) + chunk <= |corpus| && Mapped(mapResults[p], corpus, n, chunk, p)
    ensures Start(n, chunk) <= |corpus| && Output(output, Tokens(corpus[..Start(n, chunk)]), n, i)
  {
    hide Bucket, BucketOf, Tokens, Sums, Output;
    assert forall p :: 0 <= p < n ==> |mapResults[p]| == n;
    var lists := seq(n, p requires 0 <= p < n && |mapResults[p]| == n => mapResults[p][i]);
    forall p | 0 <= p < n
      ensures Start(p, chunk) + chunk <= |corpus| && lists[p] == Bucket(Tokens(Partition(corpus, chunk, p)), n, i)
      ensures Positive(lists[p])
    {
      assert Mapped(mapResults[p], corpus, n, chunk, p);
      BucketTally(Tokens(Partition(corpus, chunk, p)), n, i, "");
    }
    output := ApplyReduce(lists);
    SumsOutput(output, lists, corpus, n, chunk, i);
  }

  lemma MergeOne(counts: Counts, output: Counts, tokens: seq<string>, n: nat, i: nat)
    requires 0 < n && Merged(counts, tokens, n, i) && Output(output, tokens, n, i)
    ensures Merged(counts + output, tokens, n, i + 1) && counts.Keys !! output.Keys
  {
    hide BucketOf, Occurrences;
  }

  lemma MergedIsAll(counts: Counts, tokens: seq<string>, n: nat)
    requires 0 < n && Merged(counts, tokens, n, n)
    ensures counts == SequentialCount(tokens)
  {
    hide Occurrences;
  }
}
