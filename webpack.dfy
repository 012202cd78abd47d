/**
 * The part of a webpack compilation the plugins touch: the asset table keyed
 * by output path and the list of file dependencies.
 */
module Webpack {
  import opened JsStrings

  /** An emitted asset: `source()` returns the text, `size()` its JavaScript length. */
  datatype Asset = Asset(source: string) {
    function Size(): nat {
      Utf16Length(source)
    }
  }

  /** One write into the asset table: the output path and what is stored there. */
  type Emission = (string, Asset)

  class Compilation {
    var assets: map<string, Asset>
    /** `compilation.fileDependencies` in insertion order (what `Array.from` yields). */
    const fileDependencies: seq<string>

    constructor (assets: map<string, Asset>, fileDependencies: seq<string>)
      ensures this.assets == assets && this.fileDependencies == fileDependencies
    {
      this.assets := assets;
      this.fileDependencies := fileDependencies;
    }
  }

  /** The table after the writes `es`, in order; a later write to a path replaces an earlier one. */
  function EmitAll(assets: map<string, Asset>, es: seq<Emission>): map<string, Asset>
    decreases |es|
  {
    if es == [] then assets
    else EmitAll(assets, es[..|es| - 1])[es[|es| - 1].0 := es[|es| - 1].1]
  }

  /** The paths the writes `es` touch. */
  function WrittenPaths(es: seq<Emission>): set<string> {
    set i | 0 <= i < |es| :: es[i].0
  }

  lemma EmitAllExtend(assets: map<string, Asset>, es: seq<Emission>, e: Emission)
    ensures EmitAll(assets, es + [e]) == EmitAll(assets, es)[e.0 := e.1]
  {
    assert (es + [e])[..|es|] == es;
  }

  /** Writing `a` and then `b` is writing `a + b`. */
  lemma {:induction false} EmitAllAppend(assets: map<string, Asset>, a: seq<Emission>, b: seq<Emission>)
    ensures EmitAll(assets, a + b) == EmitAll(EmitAll(assets, a), b)
    decreases |b|
  {
    if b == [] {
      assert a + b == a;
    } else {
      var b' := b[..|b| - 1];
      EmitAllAppend(assets, a, b');
      assert (a + b)[..|a + b| - 1] == a + b';
    }
  }

  /** The last write to a path decides what the path holds. */
  lemma {:induction false} EmitAllLastWriteWins(assets: map<string, Asset>, es: seq<Emission>, i: nat)
    requires i < |es|
    requires forall j :: i < j < |es| ==> es[j].0 != es[i].0
    ensures es[i].0 in EmitAll(assets, es) && EmitAll(assets, es)[es[i].0] == es[i].1
    decreases |es|
  {
    if i < |es| - 1 {
      EmitAllLastWriteWins(assets, es[..|es| - 1], i);
    }
  }

  /** Paths no write touches keep what they held, and no other path appears. */
  lemma {:induction false} EmitAllUntouched(assets: map<string, Asset>, es: seq<Emission>)
    ensures EmitAll(assets, es).Keys == assets.Keys + WrittenPaths(es)
    ensures forall k :: k in assets && k !in WrittenPaths(es) ==> EmitAll(assets, es)[k] == assets[k]
    decreases |es|
  {
    if es != [] {
      var es' := es[..|es| - 1];
      EmitAllUntouched(assets, es');
      assert WrittenPaths(es) == WrittenPaths(es') + {es[|es| - 1].0} by {
        forall k | k in WrittenPaths(es) ensures k in WrittenPaths(es') + {es[|es| - 1].0} {
          var i :| 0 <= i < |es| && es[i].0 == k;
          if i < |es| - 1 { assert es'[i] == es[i]; }
        }
        forall k | k in WrittenPaths(es') ensures k in WrittenPaths(es) {
          var i :| 0 <= i < |es'| && es'[i].0 == k;
          assert es[i] == es'[i];
        }
      }
    }
  }

  /** What a written path ends up holding does not depend on the table before. */
  lemma {:induction false} EmitAllWrittenIgnoresBefore(m1: map<string, Asset>, m2: map<string, Asset>, es: seq<Emission>)
    ensures forall k :: k in WrittenPaths(es) ==>
      k in EmitAll(m1, es) && k in EmitAll(m2, es) && EmitAll(m1, es)[k] == EmitAll(m2, es)[k]
    decreases |es|
  {
    if es != [] {
      var es' := es[..|es| - 1];
      EmitAllWrittenIgnoresBefore(m1, m2, es');
      forall k | k in WrittenPaths(es)
        ensures k in EmitAll(m1, es) && k in EmitAll(m2, es) && EmitAll(m1, es)[k] == EmitAll(m2, es)[k]
      {
        if k != es[|es| - 1].0 {
          var i :| 0 <= i < |es| && es[i].0 == k;
          assert es'[i] == es[i];
          assert k in WrittenPaths(es');
        }
      }
    }
  }

  /** Repeating the same writes changes nothing: emission is idempotent. */
  lemma EmitAllTwice(assets: map<string, Asset>, es: seq<Emission>)
    ensures EmitAll(EmitAll(assets, es), es) == EmitAll(assets, es)
  {
    var once := EmitAll(assets, es);
    var twice := EmitAll(once, es);
    EmitAllUntouched(assets, es);
    EmitAllUntouched(once, es);
    EmitAllWrittenIgnoresBefore(once, assets, es);
    assert twice.Keys == once.Keys;
    forall k | k in once ensures twice[k] == once[k] {
      if k !in WrittenPaths(es) {
        assert twice[k] == once[k];
      }
    }
  }
}
