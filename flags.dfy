/**
 * The pure part of `npm.arguments(...)`: turning a flag map (as produced by
 * yargs or written by hand) into the list of argument tokens kept by the builder.
 *
 * A JavaScript object `{ [key: string]: string | string[] }` is modelled as an
 * ordered sequence of key/value pairs; the order is the order `Object.keys`
 * yields the keys in.
 */
module Flags {

  /** A flag's value: one string, or a list of strings (`string | string[]`). */
  datatype Value = Str(s: string) | List(items: seq<string>)

  /** A flag map in key order. */
  type FlagMap = seq<(string, Value)>

  /** The keys yargs adds for the script name and the positional arguments. */
  predicate IsYargsKey(key: string) {
    key == "$0" || key == "_"
  }

  /** The keys of a flag map, in order. */
  function Keys(m: FlagMap): seq<string> {
    seq(|m|, i requires 0 <= i < |m| => m[i].0)
  }

  /** JavaScript's `xs.join(" ")`. */
  function Join(xs: seq<string>): string {
    if |xs| == 0 then ""
    else if |xs| == 1 then xs[0]
    else xs[0] + " " + Join(xs[1..])
  }

  /** Splits a string at every space; the inverse of `Join` on words without spaces. */
  function Split(s: string): (ws: seq<string>)
    ensures |ws| >= 1
    ensures forall i :: 0 <= i < |ws| ==> ' ' !in ws[i]
  {
    if s == [] then [""]
    else
      var rest := Split(s[1..]);
      if s[0] == ' ' then [""] + rest
      else [[s[0]] + rest[0]] + rest[1..]
  }

  /** The value a token rendered for `key` carries: what follows `--key `. */
  function TokenValue(key: string, token: string): string {
    if |token| > |key| + 2 then token[|key| + 3..] else ""
  }

  /**
   * One `--key` or `--key value` token: a value of `""` gives the bare flag,
   * any other value follows the flag after one space.
   */
  function RenderToken(key: string, value: string): (t: string)
    ensures |t| >= |key| + 2 && t[..|key| + 2] == "--" + key
    ensures value == "" <==> t == "--" + key
    ensures value != "" ==> t[|key| + 2] == ' '
    ensures TokenValue(key, t) == value
  {
    if value != "" then "--" + key + " " + value else "--" + key
  }

  /** The tokens of a list value, one per element, in list order. */
  function ListTokens(key: string, items: seq<string>): seq<string> {
    seq(|items|, i requires 0 <= i < |items| => RenderToken(key, items[i]))
  }

  /** The single argument element one key renders to. */
  function RenderEntry(key: string, v: Value): (e: string)
    ensures e == "" <==> v == List([])
    ensures e != "" ==> |e| >= |key| + 2 && e[..|key| + 2] == "--" + key
  {
    match v
    case Str(s) => RenderToken(key, s)
    case List(items) => Join(ListTokens(key, items))
  }

  /** The entries `arguments` keeps: those whose key is not a yargs key, in order. */
  function Kept(m: FlagMap): (r: FlagMap)
    ensures |r| <= |m|
    ensures forall e :: e in r <==> e in m && !IsYargsKey(e.0)
  {
    if m == [] then []
    else
      assert forall e :: e in m <==> e == m[0] || e in m[1..];
      (if IsYargsKey(m[0].0) then [] else [m[0]]) + Kept(m[1..])
  }

  /**
   * The token list `arguments(map)` stores: one element per kept key, in the
   * map's order, each element rendered by `RenderEntry`.
   */
  function RenderFlags(m: FlagMap): (r: seq<string>)
    ensures |r| <= |m|
  {
    if m == [] then []
    else if IsYargsKey(m[0].0) then RenderFlags(m[1..])
    else [RenderEntry(m[0].0, m[0].1)] + RenderFlags(m[1..])
  }

  // ---------------------------------------------------------------------------
  // Properties of joining

  lemma {:induction false} JoinAppend(a: seq<string>, b: seq<string>)
    requires a != [] && b != []
    ensures Join(a + b) == Join(a) + " " + Join(b)
  {
    var ab := a + b;
    assert |ab| > 1 && ab[0] == a[0];
    if |a| == 1 {
      assert ab[1..] == b;
      assert Join(ab) == a[0] + " " + Join(b);
    } else {
      assert ab[1..] == a[1..] + b;
      JoinAppend(a[1..], b);
      calc {
        Join(ab);
        a[0] + " " + Join(a[1..] + b);
        a[0] + " " + (Join(a[1..]) + " " + Join(b));
        (a[0] + " " + Join(a[1..])) + " " + Join(b);
      }
    }
  }

  /**
   * A join starts with the first element and ends with the last, and a
   * space stands between any two elements.
   */
  lemma {:induction false} JoinEnds(xs: seq<string>)
    requires xs != []
    ensures |xs[0]| <= |Join(xs)| && Join(xs)[..|xs[0]|] == xs[0]
    ensures |xs[|xs| - 1]| <= |Join(xs)| && Join(xs)[|Join(xs)| - |xs[|xs| - 1]|..] == xs[|xs| - 1]
    ensures |xs| > 1 ==> Join(xs)[|xs[0]|] == ' '
  {
    if |xs| > 1 {
      JoinEnds(xs[1..]);
      var r, t := Join(xs), Join(xs[1..]);
      assert r == xs[0] + " " + t;
      assert xs[1..][|xs[1..]| - 1] == xs[|xs| - 1];
      assert r[|r| - |t|..] == t;
    }
  }

  lemma {:induction false} SplitWord(w: string)
    requires ' ' !in w
    ensures Split(w) == [w]
  {
    if w != [] {
      SplitWord(w[1..]);
      assert [w[0]] + w[1..] == w;
    }
  }

  lemma {:induction false} SplitWordThen(w: string, t: string)
    requires ' ' !in w
    ensures Split(w + " " + t) == [w] + Split(t)
  {
    if w == [] {
      assert w + " " + t == [' '] + t;
      assert (w + " " + t)[1..] == t;
    } else {
      assert (w + " " + t)[1..] == w[1..] + " " + t;
      SplitWordThen(w[1..], t);
      assert [w[0]] + w[1..] == w;
    }
  }

  /** Joining words that contain no space is undone by splitting at spaces. */
  lemma {:induction false} SplitJoin(xs: seq<string>)
    requires xs != []
    requires forall i :: 0 <= i < |xs| ==> ' ' !in xs[i]
    ensures Split(Join(xs)) == xs
  {
    if |xs| == 1 {
      SplitWord(xs[0]);
    } else {
      SplitJoin(xs[1..]);
      SplitWordThen(xs[0], Join(xs[1..]));
      assert [xs[0]] + xs[1..] == xs;
    }
  }

  // ---------------------------------------------------------------------------
  // Properties of rendering one entry

  /** An empty list renders to the empty element. */
  lemma EmptyListEntry(key: string)
    ensures RenderEntry(key, List([])) == ""
  {
  }

  /** A one-element list renders exactly like the scalar it holds. */
  lemma SingletonListEntry(key: string, value: string)
    ensures RenderEntry(key, List([value])) == RenderEntry(key, Str(value))
  {
  }

  /** Rendering a list value distributes over concatenation of the list, joined by one space. */
  lemma ListEntryAppend(key: string, a: seq<string>, b: seq<string>)
    requires a != [] && b != []
    ensures RenderEntry(key, List(a + b)) == RenderEntry(key, List(a)) + " " + RenderEntry(key, List(b))
  {
    assert ListTokens(key, a + b) == ListTokens(key, a) + ListTokens(key, b);
    JoinAppend(ListTokens(key, a), ListTokens(key, b));
  }

  /** The words `--key value` for each element of a list, flattened. */
  function Pairs(key: string, items: seq<string>): (ws: seq<string>)
    ensures |ws| == if items == [] then 1 else 2 * |items|
    ensures forall i :: 0 <= i < |items| ==> ws[2 * i] == "--" + key && ws[2 * i + 1] == items[i]
  {
    if items == [] then [""] else if |items| == 1 then ["--" + key, items[0]]
    else ["--" + key, items[0]] + Pairs(key, items[1..])
  }

  lemma {:induction false} PairsWords(key: string, items: seq<string>)
    ensures forall w :: w in Pairs(key, items) ==> w == "" || w == "--" + key || w in items
  {
    if |items| > 1 {
      PairsWords(key, items[1..]);
    }
  }

  /** With no empty element, the list's tokens join to the same text as its words. */
  lemma {:induction false} JoinTokensPairs(key: string, items: seq<string>)
    requires forall i :: 0 <= i < |items| ==> items[i] != ""
    ensures Join(ListTokens(key, items)) == Join(Pairs(key, items))
  {
    if |items| == 1 {
      assert ListTokens(key, items) == [RenderToken(key, items[0])];
    } else if |items| > 1 {
      var rest := items[1..];
      JoinTokensPairs(key, rest);
      assert ListTokens(key, items)[1..] == ListTokens(key, rest);
      JoinAppend(["--" + key, items[0]], Pairs(key, rest));
    }
  }

  /**
   * When neither the key nor any element contains a space and no element is
   * empty, the element of a list value splits back into `--key`, `value`
   * pairs, one per list element.
   */
  lemma ListEntrySplits(key: string, items: seq<string>)
    requires ' ' !in key
    requires forall i :: 0 <= i < |items| ==> items[i] != "" && ' ' !in items[i]
    ensures Split(RenderEntry(key, List(items))) == Pairs(key, items)
  {
    JoinTokensPairs(key, items);
    if items != [] {
      PairsWords(key, items);
      var ws := Pairs(key, items);
      forall i | 0 <= i < |ws| ensures ' ' !in ws[i] {
        assert ws[i] in ws;
        assert ' ' !in "--" + key;
      }
      SplitJoin(ws);
    }
  }

  // ---------------------------------------------------------------------------
  // Properties of rendering a whole map

  /**
   * `RenderFlags` is the filter of `Kept` followed by rendering each kept
   * entry: one element per kept key, in the same order.
   */
  lemma {:induction false} RenderFlagsKept(m: FlagMap)
    ensures |RenderFlags(m)| == |Kept(m)|
    ensures forall i :: 0 <= i < |Kept(m)| ==> RenderFlags(m)[i] == RenderEntry(Kept(m)[i].0, Kept(m)[i].1)
  {
    if m != [] {
      RenderFlagsKept(m[1..]);
      var k, r := Kept(m[1..]), RenderFlags(m[1..]);
      if IsYargsKey(m[0].0) {
        assert Kept(m) == k && RenderFlags(m) == r;
      } else {
        assert Kept(m) == [m[0]] + k;
        assert RenderFlags(m) == [RenderEntry(m[0].0, m[0].1)] + r;
        forall i | 0 < i < |Kept(m)|
          ensures RenderFlags(m)[i] == RenderEntry(Kept(m)[i].0, Kept(m)[i].1)
        {
          assert Kept(m)[i] == k[i - 1] && RenderFlags(m)[i] == r[i - 1];
        }
      }
    }
  }

  /** Filtering keeps the order: it distributes over concatenation. */
  lemma {:induction false} KeptAppend(a: FlagMap, b: FlagMap)
    ensures Kept(a + b) == Kept(a) + Kept(b)
  {
    if a == [] {
      assert a + b == b;
    } else {
      assert (a + b)[1..] == a[1..] + b;
      KeptAppend(a[1..], b);
    }
  }

  /** Rendering keeps the order: it distributes over concatenation. */
  lemma {:induction false} RenderFlagsAppend(a: FlagMap, b: FlagMap)
    ensures RenderFlags(a + b) == RenderFlags(a) + RenderFlags(b)
  {
    if a == [] {
      assert a + b == b;
    } else {
      var ab := a + b;
      assert ab[0] == a[0] && ab[1..] == a[1..] + b;
      RenderFlagsAppend(a[1..], b);
      if IsYargsKey(a[0].0) {
        calc {
          RenderFlags(ab);
          RenderFlags(a[1..] + b);
          RenderFlags(a[1..]) + RenderFlags(b);
        }
      } else {
        var e := [RenderEntry(a[0].0, a[0].1)];
        calc {
          RenderFlags(ab);
          e + RenderFlags(a[1..] + b);
          e + (RenderFlags(a[1..]) + RenderFlags(b));
          (e + RenderFlags(a[1..])) + RenderFlags(b);
        }
      }
    }
  }

  /** A single entry renders to one element, unless its key is a yargs key. */
  lemma RenderFlagsSingle(key: string, v: Value)
    ensures RenderFlags([(key, v)]) == if IsYargsKey(key) then [] else [RenderEntry(key, v)]
  {
  }

  /** A map without yargs keys renders to exactly one element per entry, in order. */
  lemma {:induction false} RenderFlagsOrdinary(m: FlagMap)
    requires forall i :: 0 <= i < |m| ==> !IsYargsKey(m[i].0)
    ensures |RenderFlags(m)| == |m|
    ensures forall i :: 0 <= i < |m| ==> RenderFlags(m)[i] == RenderEntry(m[i].0, m[i].1)
  {
    KeptOrdinary(m);
    RenderFlagsKept(m);
  }

  lemma {:induction false} KeptOrdinary(m: FlagMap)
    requires forall i :: 0 <= i < |m| ==> !IsYargsKey(m[i].0)
    ensures Kept(m) == m
  {
    if m != [] {
      KeptOrdinary(m[1..]);
      assert [m[0]] + m[1..] == m;
    }
  }

  /** The number of elements is the number of keys that are neither `$0` nor `_`. */
  lemma {:induction false} RenderFlagsCount(m: FlagMap)
    ensures |RenderFlags(m)| == |m| - multiset(Keys(m))["$0"] - multiset(Keys(m))["_"]
  {
    if m != [] {
      RenderFlagsCount(m[1..]);
      assert Keys(m) == [m[0].0] + Keys(m[1..]);
    }
  }

  // ---------------------------------------------------------------------------
  // Concrete renderings

  /**
   * The key `--no-save` of the usage example in the source's doc comment
   * renders as `----no-save`: the leading dashes are not stripped.
   */
  lemma DoubleDashKey()
    ensures RenderFlags([("--no-save", Str(""))]) == ["----no-save"]
  {
    RenderFlagsSingle("--no-save", Str(""));
    assert RenderEntry("--no-save", Str("")) == "--" + "--no-save" == "----no-save";
  }

  /** A two-element list renders to two tokens in one element. */
  lemma TwoElementList()
    ensures RenderEntry("tag", List(["a", "b"])) == "--tag a --tag b"
  {
  }

  /**
   * A hand-written map that carries the two keys yargs adds: `$0` and `_`
   * vanish, the order is kept, an empty list leaves an empty element.
   */
  lemma HandWrittenMapExample()
    ensures RenderFlags([("$0", Str("index.js")), ("_", List(["a"])), ("dev", Str("")),
                         ("tag", List(["a", "b"])), ("e", List([]))])
            == ["--dev", "--tag a --tag b", ""]
  {
    var e0, e1, e2 := ("$0", Str("index.js")), ("_", List(["a"])), ("dev", Str(""));
    var e3, e4 := ("tag", List(["a", "b"])), ("e", List([]));
    RenderFlagsSingle(e0.0, e0.1);
    RenderFlagsSingle(e1.0, e1.1);
    RenderFlagsSingle(e2.0, e2.1);
    RenderFlagsSingle(e3.0, e3.1);
    RenderFlagsSingle(e4.0, e4.1);
    TwoElementList();
    assert RenderEntry(e2.0, e2.1) == "--dev";
    RenderFlagsAppend([e0, e1], [e2, e3, e4]);
    assert [e0, e1] == [e0] + [e1];
    RenderFlagsAppend([e0], [e1]);
    assert [e2, e3, e4] == [e2] + ([e3] + [e4]);
    RenderFlagsAppend([e2], [e3] + [e4]);
    RenderFlagsAppend([e3], [e4]);
    assert [e0, e1] + [e2, e3, e4] == [e0, e1, e2, e3, e4];
  }
}
