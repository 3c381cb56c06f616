/** Counting words: one file, the two reducers' shares, the dictionaries they keep, and the sequential count. */
module WordCount {
  import opened Lists

  datatype Item = Item(word: string, count: nat)

  /** A dictionary of counts, with missing words counted as zero (`defaultdict(int)`). */
  type Counts = map<string, nat>

  function Get(wc: Counts, w: string): nat {
    if w in wc then wc[w] else 0
  }

  function Add(wc: Counts, item: Item): Counts {
    wc[item.word := Get(wc, item.word) + item.count]
  }

  /** How often `w` occurs among the tokens. */
  function Occurrences(tokens: seq<string>, w: string): nat {
    if tokens == [] then 0
    else Occurrences(tokens[..|tokens| - 1], w) + if tokens[|tokens| - 1] == w then 1 else 0
  }

  /** The counts that a list of messages carries for `w`. */
  function Tally(items: seq<Item>, w: string): nat {
    if items == [] then 0
    else Tally(items[..|items| - 1], w) + if items[|items| - 1].word == w then items[|items| - 1].count else 0
  }

  // ------------------------------------------------------------ one file

  /** One more token in an insertion-ordered counter. */
  function Bump(items: seq<Item>, w: string): seq<Item> {
    if items == [] then [Item(w, 1)]
    else if items[0].word == w then [Item(w, items[0].count + 1)] + items[1..]
    else [items[0]] + Bump(items[1..], w)
  }

  /** `Counter(tokens).items()`: each word once, in the order of first occurrence. */
  function Counter(tokens: seq<string>): seq<Item> {
    if tokens == [] then [] else Bump(Counter(tokens[..|tokens| - 1]), tokens[|tokens| - 1])
  }

  ghost predicate Distinct(items: seq<Item>) {
    forall i, j :: 0 <= i < j < |items| ==> items[i].word != items[j].word
  }

  ghost predicate Positive(items: seq<Item>) {
    forall item :: item in items ==> 0 < item.count
  }

  lemma {:induction false} TallyAppend(items: seq<Item>, more: seq<Item>, w: string)
    ensures Tally(items + more, w) == Tally(items, w) + Tally(more, w)
  {
    if more == [] {
      assert items + more == items;
    } else {
      var n := |more| - 1;
      assert (items + more)[..|items + more| - 1] == items + more[..n];
      TallyAppend(items, more[..n], w);
    }
  }

  lemma {:induction false} OccurrencesAppend(tokens: seq<string>, more: seq<string>, w: string)
    ensures Occurrences(tokens + more, w) == Occurrences(tokens, w) + Occurrences(more, w)
  {
    if more == [] {
      assert tokens + more == tokens;
    } else {
      var n := |more| - 1;
      assert (tokens + more)[..|tokens + more| - 1] == tokens + more[..n];
      OccurrencesAppend(tokens, more[..n], w);
    }
  }

  lemma {:induction false} BumpTally(items: seq<Item>, w: string, v: string)
    ensures Tally(Bump(items, w), v) == Tally(items, v) + if v == w then 1 else 0
  {
    if items == [] {
      OneTally(Item(w, 1), v);
    } else {
      var rest := items[1..];
      assert items == [items[0]] + rest;
      TallyAppend([items[0]], rest, v);
      OneTally(items[0], v);
      if items[0].word == w {
        TallyAppend([Item(w, items[0].count + 1)], rest, v);
        OneTally(Item(w, items[0].count + 1), v);
      } else {
        BumpTally(rest, w, v);
        TallyAppend([items[0]], Bump(rest, w), v);
      }
    }
  }

  lemma OneTally(item: Item, w: string)
    ensures Tally([item], w) == if item.word == w then item.count else 0
  {
    assert [item][..0] == [];
  }

  /** No listed item mentions the word. */
  ghost predicate Absent(items: seq<Item>, w: string) {
    forall item :: item in items ==> item.word != w
  }

  /** A new word goes to the end of the list; otherwise the words and their places stay. */
  lemma {:induction false} BumpPlaces(items: seq<Item>, w: string)
    ensures Absent(items, w) ==> Bump(items, w) == items + [Item(w, 1)]
    ensures !Absent(items, w) ==>
      |Bump(items, w)| == |items| && forall i :: 0 <= i < |items| ==> Bump(items, w)[i].word == items[i].word
  {
    if items != [] {
      assert items == [items[0]] + items[1..];
      BumpPlaces(items[1..], w);
      if items[0].word != w && !Absent(items[1..], w) {
        var item :| item in items[1..] && item.word == w;
        assert item in items;
      }
    }
  }

  lemma {:induction false} BumpPositive(items: seq<Item>, w: string)
    requires Positive(items)
    ensures Positive(Bump(items, w))
  {
    if items != [] {
      BumpPositive(items[1..], w);
    }
  }

  /** The words of the counter are those of the file, each where it occurs first. */
  lemma {:induction false} CounterFirsts(tokens: seq<string>)
    ensures |Counter(tokens)| == |Firsts(tokens)|
    ensures forall i :: 0 <= i < |Counter(tokens)| ==> Counter(tokens)[i].word == Firsts(tokens)[i]
    ensures Positive(Counter(tokens))
  {
    if tokens != [] {
      var init, last := tokens[..|tokens| - 1], tokens[|tokens| - 1];
      CounterFirsts(init);
      BumpPlaces(Counter(init), last);
      BumpPositive(Counter(init), last);
      if last in Firsts(init) {
        var i :| 0 <= i < |Firsts(init)| && Firsts(init)[i] == last;
        assert Counter(init)[i].word == last;
      }
    }
  }

  /** The counter lists exactly the words of the file, each once and in the order of first occurrence. */
  lemma CounterInOrder(tokens: seq<string>)
    ensures forall item :: item in Counter(tokens) ==> item.word in tokens
    ensures forall w :: w in tokens ==> exists i :: 0 <= i < |Counter(tokens)| && Counter(tokens)[i].word == w
    ensures Distinct(Counter(tokens))
    ensures forall i, j, q :: 0 <= i < j < |Counter(tokens)| && 0 <= q < |tokens| ==>
      tokens[q] == Counter(tokens)[j].word ==> Counter(tokens)[i].word in tokens[..q]
  {
    hide Counter, Firsts;
    CounterFirsts(tokens);
    FirstsInOrder(tokens);
    forall w | w in tokens ensures exists i :: 0 <= i < |Counter(tokens)| && Counter(tokens)[i].word == w {
      var i :| 0 <= i < |Firsts(tokens)| && Firsts(tokens)[i] == w;
      assert Counter(tokens)[i].word == w;
    }
  }

  /** The counter lists every word of the file exactly once, with its number of occurrences. */
  lemma {:induction false} CounterCounts(tokens: seq<string>, w: string)
    ensures Distinct(Counter(tokens)) && Positive(Counter(tokens))
    ensures Tally(Counter(tokens), w) == Occurrences(tokens, w)
  {
    if tokens != [] {
      CounterCounts(tokens[..|tokens| - 1], w);
      BumpTally(Counter(tokens[..|tokens| - 1]), tokens[|tokens| - 1], w);
    }
    CounterFirsts(tokens);
    CounterInOrder(tokens);
  }

  // ------------------------------------------------------------ the two reducers

  const REDUCERS := 2

  /** `word_2_socket`. The empty word has no first character: the source raises, see MapperState.WordCount. */
  function Route(w: string): (r: nat)
    ensures r < REDUCERS
  {
    if w != "" && w[0] < 'm' then 0 else 1
  }

  /** The messages of one file that go to reducer `r`, in sending order. */
  function Share(items: seq<Item>, r: nat): seq<Item> {
    if items == [] then []
    else
      Share(items[..|items| - 1], r)
      + if Route(items[|items| - 1].word) == r then [items[|items| - 1]] else []
  }

  /** Everything that goes to reducer `r` for the first `n` files of a stream. */
  function Items(files: seq<seq<string>>, r: nat, n: nat): seq<Item>
    requires n <= |files|
  {
    if n == 0 then [] else Items(files, r, n - 1) + Share(Counter(files[n - 1]), r)
  }

  /** The words of the first `n` files of a stream. */
  function Words(files: seq<seq<string>>, n: nat): seq<string>
    requires n <= |files|
  {
    if n == 0 then [] else Words(files, n - 1) + files[n - 1]
  }

  lemma {:induction false} ShareTally(items: seq<Item>, r: nat, w: string)
    ensures Tally(Share(items, r), w) == if Route(w) == r then Tally(items, w) else 0
    ensures Positive(items) ==> Positive(Share(items, r))
  {
    if items != [] {
      var n := |items| - 1;
      ShareTally(items[..n], r, w);
      TallyAppend(Share(items[..n], r), if Route(items[n].word) == r then [items[n]] else [], w);
      assert [items[n]][..0] == [];
      assert Tally([items[n]], w) == Tally([], w) + if items[n].word == w then items[n].count else 0;
    }
  }

  lemma {:induction false} ShareRoutes(items: seq<Item>, r: nat)
    requires forall item :: item in items ==> item.word != ""
    ensures forall k :: 0 <= k < |Share(items, r)| ==>
      Share(items, r)[k].word != "" && r == if Share(items, r)[k].word[0] < 'm' then 0 else 1
  {
    if items != [] {
      ShareRoutes(items[..|items| - 1], r);
    }
  }

  /** A reducer's share of the first `n` files counts exactly the words routed to it. */
  lemma {:induction false} ItemsTally(files: seq<seq<string>>, r: nat, n: nat, w: string)
    requires n <= |files|
    ensures Tally(Items(files, r, n), w) == if Route(w) == r then Occurrences(Words(files, n), w) else 0
    ensures w != "" ==>
      Tally(Items(files, r, n), w) == if r == (if w[0] < 'm' then 0 else 1) then Occurrences(Words(files, n), w) else 0
    ensures Positive(Items(files, r, n))
  {
    if 0 < n {
      ItemsTally(files, r, n - 1, w);
      var items := Counter(files[n - 1]);
      CounterCounts(files[n - 1], w);
      ShareTally(items, r, w);
      TallyAppend(Items(files, r, n - 1), Share(items, r), w);
      OccurrencesAppend(Words(files, n - 1), files[n - 1], w);
    }
  }

  // ------------------------------------------------------------ a reducer's dictionary

  /** The counts for `w` in all of the given message lists, one list per mapper. */
  function TallyAll(seen: seq<seq<Item>>, w: string): nat {
    if seen == [] then 0 else TallyAll(seen[..|seen| - 1], w) + Tally(seen[|seen| - 1], w)
  }

  /** Counting a list of messages into a dictionary. */
  function AddAll(wc: Counts, items: seq<Item>): Counts {
    if items == [] then wc else Add(AddAll(wc, items[..|items| - 1]), items[|items| - 1])
  }

  lemma {:induction false} AddAllAppend(wc: Counts, items: seq<Item>, more: seq<Item>)
    ensures AddAll(wc, items + more) == AddAll(AddAll(wc, items), more)
  {
    if more == [] {
      assert items + more == items;
    } else {
      var n := |more| - 1;
      assert (items + more)[..|items + more| - 1] == items + more[..n];
      AddAllAppend(wc, items, more[..n]);
    }
  }

  lemma {:induction false} AddAllTally(wc: Counts, items: seq<Item>, w: string)
    ensures Get(AddAll(wc, items), w) == Get(wc, w) + Tally(items, w)
  {
    if items != [] {
      AddAllTally(wc, items[..|items| - 1], w);
    }
  }

  /** The dictionary sums up the messages seen and lists no word without a count. */
  ghost predicate Sums(wc: Counts, seen: seq<seq<Item>>) {
    (forall w :: Get(wc, w) == TallyAll(seen, w)) && (forall w :: w in wc ==> 0 < wc[w])
  }

  function NothingSeen(mappers: nat): seq<seq<Item>> {
    seq(mappers, m => [])
  }

  lemma {:induction false} NothingTally(seen: seq<seq<Item>>, w: string)
    requires forall m :: 0 <= m < |seen| ==> seen[m] == []
    ensures TallyAll(seen, w) == 0
  {
    if seen != [] {
      NothingTally(seen[..|seen| - 1], w);
    }
  }

  lemma EmptySums(mappers: nat)
    ensures Sums(map[], NothingSeen(mappers))
  {
    forall w ensures TallyAll(NothingSeen(mappers), w) == 0 {
      NothingTally(NothingSeen(mappers), w);
    }
  }

  lemma {:induction false} TallyAllUpdate(seen: seq<seq<Item>>, m: nat, item: Item, w: string)
    requires m < |seen|
    ensures TallyAll(seen[m := seen[m] + [item]], w) == TallyAll(seen, w) + if item.word == w then item.count else 0
  {
    var n := |seen| - 1;
    var next := seen[m := seen[m] + [item]];
    if m == n {
      assert next[..n] == seen[..n];
      assert (seen[m] + [item])[..|seen[m]|] == seen[m];
    } else {
      TallyAllUpdate(seen[..n], m, item, w);
      assert next[..n] == seen[..n][m := seen[m] + [item]];
    }
  }

  /** Counting one message into the dictionary. */
  lemma SumsAdd(wc: Counts, seen: seq<seq<Item>>, m: nat, item: Item)
    requires Sums(wc, seen) && m < |seen| && 0 < item.count
    ensures Sums(Add(wc, item), seen[m := seen[m] + [item]])
  {
    forall w ensures Get(Add(wc, item), w) == TallyAll(seen[m := seen[m] + [item]], w) {
      TallyAllUpdate(seen, m, item, w);
      assert Get(wc, w) == TallyAll(seen, w);
    }
  }

  // ------------------------------------------------------------ several streams

  /** The words of the first `cut[m]` files of every stream `m`. */
  function AllWords(files: seq<seq<seq<string>>>, cut: seq<nat>): seq<string>
    requires |cut| == |files| && forall m :: 0 <= m < |files| ==> cut[m] <= |files[m]|
  {
    if files == [] then []
    else AllWords(files[..|files| - 1], cut[..|files| - 1]) + Words(files[|files| - 1], cut[|files| - 1])
  }

  /** `seq.py`: count all words in one pass. */
  function SequentialCount(tokens: seq<string>): Counts {
    map w | w in tokens :: Occurrences(tokens, w)
  }

  /** The sequential count is the number of times that each word occurs, of the words that do occur. */
  lemma {:induction false} SequentialIsMultiplicity(tokens: seq<string>, w: string)
    ensures Occurrences(tokens, w) == multiset(tokens)[w]
    ensures w in SequentialCount(tokens) <==> w in tokens
    ensures w in tokens ==> SequentialCount(tokens)[w] == multiset(tokens)[w]
  {
    if tokens != [] {
      SequentialIsMultiplicity(tokens[..|tokens| - 1], w);
      assert tokens == tokens[..|tokens| - 1] + [tokens[|tokens| - 1]];
    }
  }

  lemma {:induction false} OccurrencesPositive(tokens: seq<string>, w: string)
    ensures 0 < Occurrences(tokens, w) <==> w in tokens
  {
    if tokens != [] {
      OccurrencesPositive(tokens[..|tokens| - 1], w);
      assert tokens == tokens[..|tokens| - 1] + [tokens[|tokens| - 1]];
    }
  }

  lemma {:induction false} AllTally(files: seq<seq<seq<string>>>, cut: seq<nat>, seen: seq<seq<Item>>, r: nat,
                                    w: string)
    requires |cut| == |files| == |seen| && forall m :: 0 <= m < |files| ==> cut[m] <= |files[m]|
    requires forall m :: 0 <= m < |files| ==> seen[m] == Items(files[m], r, cut[m])
    ensures TallyAll(seen, w) == if Route(w) == r then Occurrences(AllWords(files, cut), w) else 0
  {
    if files != [] {
      var n := |files| - 1;
      AllTally(files[..n], cut[..n], seen[..n], r, w);
      ItemsTally(files[n], r, cut[n], w);
      OccurrencesAppend(AllWords(files[..n], cut[..n]), Words(files[n], cut[n]), w);
    }
  }

  /** A dictionary that has seen exactly the first `cut[m]` files of each stream. */
  ghost predicate CountsExactly(wc: Counts, files: seq<seq<seq<string>>>, cut: seq<nat>, r: nat)
    requires |cut| == |files| && forall m :: 0 <= m < |files| ==> cut[m] <= |files[m]|
  {
    && (forall w :: Get(wc, w) == if Route(w) == r then Occurrences(AllWords(files, cut), w) else 0)
    && (forall w :: w in wc ==> 0 < wc[w])
  }

  lemma SeenExactly(wc: Counts, files: seq<seq<seq<string>>>, cut: seq<nat>, seen: seq<seq<Item>>, r: nat)
    requires |cut| == |files| == |seen| && forall m :: 0 <= m < |files| ==> cut[m] <= |files[m]|
    requires forall m :: 0 <= m < |files| ==> seen[m] == Items(files[m], r, cut[m])
    requires Sums(wc, seen)
    ensures CountsExactly(wc, files, cut, r)
  {
    forall w ensures Get(wc, w) == if Route(w) == r then Occurrences(AllWords(files, cut), w) else 0 {
      AllTally(files, cut, seen, r, w);
      assert Get(wc, w) == TallyAll(seen, w);
    }
  }

  /** Merging the two reducers' dictionaries gives the sequential count: no word is lost, none is in both. */
  lemma MergeIsSequential(wc0: Counts, wc1: Counts, files: seq<seq<seq<string>>>, cut: seq<nat>)
    requires |cut| == |files| && forall m :: 0 <= m < |files| ==> cut[m] <= |files[m]|
    requires CountsExactly(wc0, files, cut, 0) && CountsExactly(wc1, files, cut, 1)
    ensures wc0 + wc1 == SequentialCount(AllWords(files, cut))
    ensures wc0.Keys !! wc1.Keys
    ensures forall w :: w in wc0 ==> w != "" && w[0] < 'm'
    ensures forall w :: w in wc1 ==> w == "" || 'm' <= w[0]
  {
    var tokens := AllWords(files, cut);
    forall w
      ensures w in wc0 <==> Route(w) == 0 && w in tokens
      ensures w in wc1 <==> Route(w) == 1 && w in tokens
      ensures w in wc0 ==> wc0[w] == Occurrences(tokens, w)
      ensures w in wc1 ==> wc1[w] == Occurrences(tokens, w)
    {
      OccurrencesPositive(tokens, w);
      assert Get(wc0, w) == if Route(w) == 0 then Occurrences(tokens, w) else 0;
      assert Get(wc1, w) == if Route(w) == 1 then Occurrences(tokens, w) else 0;
    }
  }
}
