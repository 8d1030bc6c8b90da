/** flux_mod/loader.py: selective loading of a checkpoint's tensors, the
    fixed exclusion list of the base checkpoint, and the guidance condition
    of the external Flux model. A checkpoint archive is an insertion-ordered
    dict from parameter names to opaque tensors. */
module Loader {
  import opened Common
  import opened Dicts

  /** `needle` stands in `hay` starting at position `i`. */
  ghost predicate OccursAt(hay: string, needle: string, i: int) {
    0 <= i <= |hay| - |needle| && hay[i..i + |needle|] == needle
  }

  /** Python's `needle in hay` on strings. */
  function Contains(hay: string, needle: string): (r: bool)
    ensures r <==> exists i :: OccursAt(hay, needle, i)
    decreases |hay|
  {
    if |needle| > |hay| then false
    else if hay[..|needle|] == needle then assert OccursAt(hay, needle, 0); true
    else
      var rest := Contains(hay[1..], needle);
      assert rest ==> exists i :: OccursAt(hay, needle, i) by {
        if rest {
          var i :| OccursAt(hay[1..], needle, i);
          assert hay[i + 1..i + 1 + |needle|] == hay[1..][i..i + |needle|];
          assert OccursAt(hay, needle, i + 1);
        }
      }
      assert (exists i :: OccursAt(hay, needle, i)) ==> rest by {
        if i :| OccursAt(hay, needle, i) {
          assert i != 0;
          assert hay[1..][i - 1..i - 1 + |needle|] == hay[i..i + |needle|];
          assert OccursAt(hay[1..], needle, i - 1);
        }
      }
      rest
  }

  /** `any(keyword in key for keyword in exclude_keywords)`: nothing is
      excluded by an empty list, and everything by the empty keyword. */
  function Excluded(key: string, excludeKeywords: seq<string>): (r: bool)
    ensures excludeKeywords == [] ==> !r
    ensures "" in excludeKeywords ==> r
  {
    |excludeKeywords| > 0 && (Contains(key, excludeKeywords[0]) || Excluded(key, excludeKeywords[1..]))
  }

  /** `any` holds exactly when some keyword of the list is a substring of the key. */
  lemma {:induction false} ExcludedMeans(key: string, excludeKeywords: seq<string>)
    ensures Excluded(key, excludeKeywords) <==> exists keyword :: keyword in excludeKeywords && Contains(key, keyword)
  {
    if |excludeKeywords| > 0 {
      ExcludedMeans(key, excludeKeywords[1..]);
      assert excludeKeywords == [excludeKeywords[0]] + excludeKeywords[1..];
      if Contains(key, excludeKeywords[0]) {
        assert excludeKeywords[0] in excludeKeywords;
      }
    }
  }

  /** Reference definition of the names that survive the filter: `names` in
      their own order, with every excluded name dropped. */
  function Kept(names: seq<string>, excludeKeywords: seq<string>): (r: seq<string>)
    ensures forall k :: k in r <==> k in names && !Excluded(k, excludeKeywords)
  {
    if names == [] then []
    else
      var last := names[|names| - 1];
      Kept(names[..|names| - 1], excludeKeywords) + (if Excluded(last, excludeKeywords) then [] else [last])
  }

  /** Filtering a list without repetitions yields a list without repetitions. */
  lemma {:induction false} KeptDistinct(names: seq<string>, excludeKeywords: seq<string>)
    requires Distinct(names)
    ensures Distinct(Kept(names, excludeKeywords))
  {
    if names != [] {
      KeptDistinct(names[..|names| - 1], excludeKeywords);
    }
  }

  /** With no exclusion keyword (the default `exclude_keywords=[]`) every
      name is kept, in order. */
  lemma {:induction false} KeptNoExclusions(names: seq<string>)
    ensures Kept(names, []) == names
  {
    if names != [] {
      KeptNoExclusions(names[..|names| - 1]);
    }
  }

  /** The empty keyword is a substring of every key, so it excludes them all. */
  lemma {:induction false} KeptEmptyKeyword(names: seq<string>, excludeKeywords: seq<string>)
    requires "" in excludeKeywords
    ensures Kept(names, excludeKeywords) == []
  {
    if names != [] {
      KeptEmptyKeyword(names[..|names| - 1], excludeKeywords);
    }
  }

  /** `load_selected_keys`: walks the names in the order `f.keys()` yields and copies into
      a fresh dict every tensor whose name contains none of the keywords. */
  method LoadSelectedKeys<V>(file: Dict<V>, excludeKeywords: seq<string>) returns (tensors: Dict<V>)
    requires file.Valid()
    ensures tensors.Valid()
    ensures tensors.keys == Kept(file.keys, excludeKeywords)
    ensures forall k :: k in tensors.entries <==> k in file.entries && !Excluded(k, excludeKeywords)
    ensures forall k :: k in tensors.entries ==> tensors.entries[k] == file.entries[k]
  {
    tensors := Empty();
    for i := 0 to |file.keys|
      invariant tensors.Valid()
      invariant tensors.keys == Kept(file.keys[..i], excludeKeywords)
      invariant forall k :: k in tensors.entries ==> tensors.entries[k] == file.entries[k]
    {
      var key := file.keys[i];
      KeptStep(file.keys, i, excludeKeywords);
      if !Excluded(key, excludeKeywords) {
        tensors := tensors.Put(key, file.entries[key]);
      }
    }
    assert file.keys[..|file.keys|] == file.keys;
  }

  /** One more name of a repetition-free list: it is kept at the end exactly
      when no keyword excludes it, and it was not kept before. */
  lemma KeptStep(names: seq<string>, i: nat, excludeKeywords: seq<string>)
    requires Distinct(names) && i < |names|
    ensures Kept(names[..i + 1], excludeKeywords) ==
      Kept(names[..i], excludeKeywords) + (if Excluded(names[i], excludeKeywords) then [] else [names[i]])
    ensures names[i] !in Kept(names[..i], excludeKeywords)
  {
    assert names[..i + 1][..i] == names[..i];
  }

  /** `load_selected_keys(filename)` with the default empty exclusion list
      loads the whole archive, in its own order. */
  method LoadAllKeys<V>(file: Dict<V>) returns (tensors: Dict<V>)
    requires file.Valid()
    ensures tensors == file
  {
    tensors := LoadSelectedKeys(file, []);
    KeptNoExclusions(file.keys);
    SameDict(tensors, file);
  }

  /** The keywords `load_flux_mod` strips from the base checkpoint: the
      modulation, timestep, guidance and vector embeddings that the
      separately stored guidance approximator replaces. */
  const FluxModExcludes: seq<string> := ["mod", "time_in", "guidance_in", "vector_in"]

  /** A name is excluded from the base checkpoint exactly when it contains
      one of the four replaced sub-network names. */
  predicate ReplacedByApproximator(k: string) {
    Contains(k, "mod") || Contains(k, "time_in") || Contains(k, "guidance_in") || Contains(k, "vector_in")
  }

  lemma FluxModExcludedIff(k: string)
    ensures Excluded(k, FluxModExcludes) <==> ReplacedByApproximator(k)
  {
    var ex0 := FluxModExcludes;
    var ex1, ex2, ex3: seq<string> := ["time_in", "guidance_in", "vector_in"], ["guidance_in", "vector_in"], ["vector_in"];
    assert ex0[1..] == ex1 && ex1[1..] == ex2 && ex2[1..] == ex3 && ex3[1..] == [];
    assert Excluded(k, ex3) <==> Contains(k, "vector_in");
    assert Excluded(k, ex2) <==> Contains(k, "guidance_in") || Excluded(k, ex3);
    assert Excluded(k, ex1) <==> Contains(k, "time_in") || Excluded(k, ex2);
    assert Excluded(k, ex0) <==> Contains(k, "mod") || Excluded(k, ex1);
  }

  /** The base state dict of `load_flux_mod`: no kept parameter name contains
      any of the four replaced sub-network names, and every other name of
      the checkpoint is kept with its tensor. */
  method LoadBaseStateDict<V>(file: Dict<V>) returns (stateDict: Dict<V>)
    requires file.Valid()
    ensures stateDict.Valid()
    ensures forall k :: k in stateDict.entries ==>
      !Contains(k, "mod") && !Contains(k, "time_in") && !Contains(k, "guidance_in") && !Contains(k, "vector_in")
    ensures forall k :: k in file.entries && !ReplacedByApproximator(k) ==>
      k in stateDict.entries && stateDict.entries[k] == file.entries[k]
    ensures stateDict.keys == Kept(file.keys, FluxModExcludes)
    ensures forall k :: k in stateDict.entries ==> k in file.entries && stateDict.entries[k] == file.entries[k]
  {
    stateDict := LoadSelectedKeys(file, FluxModExcludes);
    forall k
      ensures Excluded(k, FluxModExcludes) <==> ReplacedByApproximator(k)
    {
      FluxModExcludedIff(k);
    }
  }

  /** A conditioning value of the host: either the scalar tensor built here
      or one produced by the host's base class (kept opaque). */
  datatype Cond = CondRegular(tensor: seq<real>) | HostCond(tag: string)

  const DefaultGuidance: real := 3.5

  /** `ExternalFluxModel.extra_conds`: the base class's conditions with
      'guidance' set to the caller's "guidance" keyword argument, or to 3.5
      when the caller gave none. */
  function ExtraConds(base: map<string, Cond>, kwargs: map<string, real>): (out: map<string, Cond>)
    ensures "guidance" in out
    ensures "guidance" in kwargs ==> out["guidance"] == CondRegular([kwargs["guidance"]])
    ensures "guidance" !in kwargs ==> out["guidance"] == CondRegular([3.5])
    ensures out.Keys == base.Keys + {"guidance"}
    ensures forall k :: k in base && k != "guidance" ==> out[k] == base[k]
  {
    base["guidance" := CondRegular([if "guidance" in kwargs then kwargs["guidance"] else DefaultGuidance])]
  }
}
