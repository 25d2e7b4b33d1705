/**
 * Parameter grids and `itertools.product` over them. A grid is an ordered
 * list of parameter names with their option lists; a combination is one value
 * per name, in the grid's order, and the configuration dict pairs the names
 * with those values.
 */
module Grid {
  import opened Sorting

  type Config = map<string, real>

  datatype Grid = Grid(keys: seq<string>, options: seq<seq<real>>)

  predicate WellFormed(g: Grid) {
    |g.keys| == |g.options|
  }

  /** `[v] + r` for each option `v` and each combination `r` of the rest, the option varying slowest. */
  function Extend(opts: seq<real>, rest: seq<seq<real>>): (r: seq<seq<real>>)
    ensures |r| == |opts| * |rest|
  {
    if opts == [] then []
    else
      seq(|rest|, i requires 0 <= i < |rest| => [opts[0]] + rest[i]) + Extend(opts[1..], rest)
  }

  /** `itertools.product(*options)`. */
  function Product(options: seq<seq<real>>): seq<seq<real>> {
    if options == [] then [[]] else Extend(options[0], Product(options[1..]))
  }

  /** The number of combinations: the product of the option counts. */
  function Size(options: seq<seq<real>>): nat {
    if options == [] then 1 else |options[0]| * Size(options[1..])
  }

  /** The product of the option counts from position `i` on, read by position. */
  function SizeAt(options: seq<seq<real>>, i: nat): nat
    requires i <= |options|
    decreases |options| - i
  {
    if i == |options| then 1 else |options[i]| * SizeAt(options, i + 1)
  }

  /** Reading the option counts by position gives the same product. */
  lemma {:induction false} SizeFrom(options: seq<seq<real>>, i: nat)
    requires i <= |options|
    ensures Size(options[i..]) == SizeAt(options, i)
    decreases |options| - i
  {
    if i < |options| {
      assert options[i..][1..] == options[i + 1..];
      SizeFrom(options, i + 1);
    }
  }

  /** `combo` picks one option per position. */
  predicate IsCombination(combo: seq<real>, options: seq<seq<real>>) {
    |combo| == |options| && forall i :: 0 <= i < |options| ==> combo[i] in options[i]
  }

  lemma {:induction false} ProductSize(options: seq<seq<real>>)
    ensures |Product(options)| == Size(options)
  {
    if options != [] {
      ProductSize(options[1..]);
    }
  }

  lemma {:induction false} ExtendMembers(opts: seq<real>, rest: seq<seq<real>>, c: seq<real>)
    ensures c in Extend(opts, rest) <==> |c| > 0 && c[0] in opts && c[1..] in rest
  {
    if opts != [] {
      ExtendMembers(opts[1..], rest, c);
      var head := seq(|rest|, i requires 0 <= i < |rest| => [opts[0]] + rest[i]);
      assert Extend(opts, rest) == head + Extend(opts[1..], rest);
      if c in head {
        var i :| 0 <= i < |head| && head[i] == c;
        assert c[1..] == rest[i];
      }
      if |c| > 0 && c[0] in opts && c[1..] in rest {
        if c[0] == opts[0] {
          var i :| 0 <= i < |rest| && rest[i] == c[1..];
          assert head[i] == c;
        } else {
          assert c[0] in opts[1..];
        }
      }
    }
  }

  /** The product yields exactly the combinations: each one, and nothing else. */
  lemma {:induction false} ProductMembers(options: seq<seq<real>>, c: seq<real>)
    ensures c in Product(options) <==> IsCombination(c, options)
  {
    if options == [] {
      assert c in Product(options) <==> c == [];
    } else {
      ExtendMembers(options[0], Product(options[1..]), c);
      if |c| > 0 {
        ProductMembers(options[1..], c[1..]);
        assert IsCombination(c, options) <==> c[0] in options[0] && IsCombination(c[1..], options[1..]) by {
          if IsCombination(c, options) {
            forall i | 0 <= i < |options| - 1
              ensures c[1..][i] in options[1..][i]
            {
              assert c[i + 1] in options[i + 1];
            }
          }
          if c[0] in options[0] && IsCombination(c[1..], options[1..]) {
            forall i | 0 <= i < |options|
              ensures c[i] in options[i]
            {
              if i > 0 {
                assert c[1..][i - 1] in options[1..][i - 1];
              }
            }
          }
        }
      }
    }
  }

  /** `{k: v for k, v in zip(keys, combo)}`: a later duplicate name wins, as in the dict comprehension. */
  function Zip(keys: seq<string>, combo: seq<real>): (c: Config)
    requires |keys| == |combo|
    ensures forall k :: k in c <==> k in keys
    decreases |keys|
  {
    if keys == [] then map[]
    else Zip(keys[..|keys| - 1], combo[..|combo| - 1])[keys[|keys| - 1] := combo[|combo| - 1]]
  }

  /** Each configuration of the grid, in product order. */
  function Configs(g: Grid): (cs: seq<Config>)
    requires WellFormed(g)
  {
    var combos := Product(g.options);
    seq(|combos|, i requires 0 <= i < |combos| =>
      ProductMembers(g.options, combos[i]);
      Zip(g.keys, combos[i]))
  }

  /** Each name of the grid maps to its own position's value when the names do not repeat. */
  lemma {:induction false} ZipAt(keys: seq<string>, combo: seq<real>, i: nat)
    requires |keys| == |combo| && i < |keys| && Distinct(keys)
    ensures keys[i] in Zip(keys, combo) && Zip(keys, combo)[keys[i]] == combo[i]
    decreases |keys|
  {
    var n := |keys| - 1;
    ZipLast(keys, combo);
    if i < n {
      DistinctPrefix(keys, n);
      DistinctBefore(keys, n);
      ZipAt(keys[..n], combo[..n], i);
    }
  }

  lemma ZipLast(keys: seq<string>, combo: seq<real>)
    requires |keys| == |combo| && keys != []
    ensures Zip(keys, combo) == Zip(keys[..|keys| - 1], combo[..|combo| - 1])[keys[|keys| - 1] := combo[|combo| - 1]]
  {
  }

  /** With distinct names, different combinations give different configurations. */
  lemma ZipInjective(keys: seq<string>, a: seq<real>, b: seq<real>)
    requires |keys| == |a| == |b| && Distinct(keys) && Zip(keys, a) == Zip(keys, b)
    ensures a == b
  {
    forall i | 0 <= i < |keys| ensures a[i] == b[i] {
      ZipAt(keys, a, i);
      ZipAt(keys, b, i);
    }
  }

  lemma {:induction false} ExtendDistinct(opts: seq<real>, rest: seq<seq<real>>)
    requires Distinct(opts) && Distinct(rest)
    ensures Distinct(Extend(opts, rest))
  {
    if opts != [] {
      var head := seq(|rest|, i requires 0 <= i < |rest| => [opts[0]] + rest[i]);
      var tail := Extend(opts[1..], rest);
      assert Distinct(opts[1..]) by {
        forall a, b | 0 <= a < b < |opts| - 1 ensures opts[1..][a] != opts[1..][b] {
          assert opts[a + 1] != opts[b + 1];
        }
      }
      ExtendDistinct(opts[1..], rest);
      var e := head + tail;
      assert Extend(opts, rest) == e;
      forall a, b | 0 <= a < b < |e| ensures e[a] != e[b] {
        if b < |head| {
          assert e[a][1..] == rest[a] && e[b][1..] == rest[b];
        } else if a < |head| {
          ExtendMembers(opts[1..], rest, e[b]);
          assert e[b] in tail;
          assert e[a][0] == opts[0];
          assert opts[0] !in opts[1..];
        }
      }
    }
  }

  /** When no option list repeats a value, no combination is produced twice. */
  lemma {:induction false} ProductDistinct(options: seq<seq<real>>)
    requires forall i :: 0 <= i < |options| ==> Distinct(options[i])
    ensures Distinct(Product(options))
  {
    if options != [] {
      ProductDistinct(options[1..]);
      ExtendDistinct(options[0], Product(options[1..]));
    }
  }

  /** A grid with distinct names and distinct options yields each configuration once. */
  lemma ConfigsDistinct(g: Grid)
    requires WellFormed(g) && Distinct(g.keys)
    requires forall i :: 0 <= i < |g.options| ==> Distinct(g.options[i])
    ensures Distinct(Configs(g))
  {
    var combos := Product(g.options);
    ProductDistinct(g.options);
    var cs := Configs(g);
    forall a, b | 0 <= a < b < |cs| ensures cs[a] != cs[b] {
      ProductMembers(g.options, combos[a]);
      ProductMembers(g.options, combos[b]);
      if cs[a] == cs[b] {
        ZipInjective(g.keys, combos[a], combos[b]);
      }
    }
  }

  /** Every combination of the grid appears among its configurations. */
  lemma ConfigsComplete(g: Grid, combo: seq<real>)
    requires WellFormed(g) && IsCombination(combo, g.options)
    ensures Zip(g.keys, combo) in Configs(g)
  {
    ProductMembers(g.options, combo);
    var combos := Product(g.options);
    var i :| 0 <= i < |combos| && combos[i] == combo;
    assert Configs(g)[i] == Zip(g.keys, combo);
  }

  /** Every configuration of the grid is the dict of one of its combinations. */
  lemma ConfigsSound(g: Grid, i: nat)
    requires WellFormed(g) && i < |Configs(g)|
    ensures IsCombination(Product(g.options)[i], g.options)
    ensures Configs(g)[i] == Zip(g.keys, Product(g.options)[i])
  {
    ProductMembers(g.options, Product(g.options)[i]);
  }
}
