/**
  Model persistence and ensemble membership of MLModelManager
  (app/models/ml_models.py): the file name each model is saved under, the
  key a file in a model directory is loaded back under, and which loaded
  models take part in an ensemble prediction.  The models themselves are
  opaque values.
*/
module MLModels {
  import opened Common

  /** A model object: one trained in this process, or one read back from a file. */
  datatype Model = Trained(algorithm: string) | FromFile(file: string)

  const PklSuffix: string := "_model.pkl"
  const H5Suffix: string := "_model.h5"
  /** 'model_performance.pkl', written as the two parts the proofs about it take apart. */
  const PerformanceFile: string := "model" + "_performance.pkl"

  // ---------------------------------------------------------------------------
  // Python string operations

  /** `s.startswith(t)`. */
  predicate StartsWith(s: string, t: string)
  {
    |t| <= |s| && s[..|t|] == t
  }

  /** `s.endswith(t)`. */
  predicate EndsWith(s: string, t: string)
  {
    |t| <= |s| && s[|s| - |t|..] == t
  }

  /** `t in s`, for a non-empty `t`. */
  predicate ContainsSub(s: string, t: string)
    requires |t| > 0
    decreases |s|
  {
    StartsWith(s, t) || (|s| > 0 && ContainsSub(s[1..], t))
  }

  /** `s.replace(t, '')`: occurrences are removed left to right, without overlap. */
  function RemoveAll(s: string, t: string): (r: string)
    requires |t| > 0
    ensures |r| <= |s|
    ensures !ContainsSub(s, t) ==> r == s
    decreases |s|
  {
    if |s| < |t| then s
    else if s[..|t|] == t then RemoveAll(s[|t|..], t)
    else [s[0]] + RemoveAll(s[1..], t)
  }

  lemma {:induction false} ContainsSuffix(s: string, t: string)
    requires |t| > 0
    ensures ContainsSub(s + t, t)
    decreases |s|
  {
    if s == [] {
      assert (s + t)[..|t|] == t;
    } else {
      assert (s + t)[1..] == s[1..] + t;
      ContainsSuffix(s[1..], t);
    }
  }

  lemma {:induction false} ContainsInfix(s: string, t: string, u: string, k: nat)
    requires |u| > 0 && k + |u| <= |t| && t[k..k + |u|] == u
    ensures ContainsSub(s + t, u)
    decreases |s| + k
  {
    if s == [] && k == 0 {
      assert (s + t)[..|u|] == t[..|u|];
    } else if s == [] {
      assert t[1..][k - 1..k - 1 + |u|] == u;
      ContainsInfix([], t[1..], u, k - 1);
      assert [] + t[1..] == t[1..] && s + t == t;
    } else {
      assert (s + t)[1..] == s[1..] + t;
      ContainsInfix(s[1..], t, u, k);
    }
  }

  /**
    Removing a suffix whose first character occurs nowhere else in it, from
    a string that does not contain that suffix, gives the string back: no
    occurrence can begin inside the string and run into the suffix.
  */
  lemma {:induction false} RemoveAppended(s: string, t: string)
    requires |t| > 0 && forall i :: 0 < i < |t| ==> t[i] != t[0]
    requires !ContainsSub(s, t)
    ensures RemoveAll(s + t, t) == s
    decreases |s|
  {
    if s == [] {
      assert (s + t)[..|t|] == t && (s + t)[|t|..] == [];
    } else {
      if |s| < |t| {
        assert (s + t)[..|t|][|s|] == t[0] != t[|s|];
      } else {
        assert (s + t)[..|t|] == s[..|t|];
      }
      assert (s + t)[1..] == s[1..] + t;
      RemoveAppended(s[1..], t);
    }
  }

  // ---------------------------------------------------------------------------
  // Saving

  /** `save_models`: Keras models ('lstm', 'cnn') go to `.h5`, every other model is pickled. */
  function SaveFileName(name: string): (f: string)
    ensures |f| > |name| && f[..|name|] == name
    ensures EndsWith(f, PklSuffix) || EndsWith(f, H5Suffix)
  {
    if name == "lstm" || name == "cnn" then name + H5Suffix else name + PklSuffix
  }

  /** The file of a Keras model ends in `.h5`; every other model's file ends in `.pkl` and names 'model'. */
  lemma SaveFileKind(name: string)
    ensures name == "lstm" || name == "cnn" ==> EndsWith(SaveFileName(name), ".h5") && !EndsWith(SaveFileName(name), ".pkl")
    ensures name != "lstm" && name != "cnn" ==> EndsWith(SaveFileName(name), ".pkl") && ContainsSub(SaveFileName(name), "model")
  {
    var f := SaveFileName(name);
    if name == "lstm" || name == "cnn" {
      assert f == name + H5Suffix;
      H5FilePasses(name);
    } else {
      assert f == name + PklSuffix;
      PklFilePasses(name);
    }
  }

  /** The model files of a save, one per model. */
  function ModelFiles(names: set<string>): set<string>
  {
    set n | n in names :: SaveFileName(n)
  }

  lemma ModelFilesAdd(done: set<string>, n: string)
    ensures ModelFiles(done + {n}) == ModelFiles(done) + {SaveFileName(n)}
  {
  }

  /** The files a save writes: one per model, plus the performance metrics. */
  function SavedFiles(names: set<string>): set<string>
  {
    ModelFiles(names) + {PerformanceFile}
  }

  // ---------------------------------------------------------------------------
  // Loading

  /**
    `load_models`: a `.pkl` file whose name contains 'model' is registered
    under its name with every '_model.pkl' removed; otherwise an `.h5` file
    under its name with every '_model.h5' removed; any other file is skipped.
  */
  function RegisteredKey(file: string): (k: Option<string>)
    ensures k.None? <==> !(EndsWith(file, ".pkl") && ContainsSub(file, "model")) && !EndsWith(file, ".h5")
  {
    if EndsWith(file, ".pkl") && ContainsSub(file, "model") then Some(RemoveAll(file, PklSuffix))
    else if EndsWith(file, ".h5") then Some(RemoveAll(file, H5Suffix))
    else None
  }

  /** One iteration of the loading loop. */
  function Register(models: map<string, Model>, file: string): (r: map<string, Model>)
    ensures RegisteredKey(file).None? ==> r == models
    ensures RegisteredKey(file).Some? ==> r == models[RegisteredKey(file).value := FromFile(file)]
  {
    match RegisteredKey(file)
    case None => models
    case Some(k) => models[k := FromFile(file)]
  }

  /** The loading loop over a directory listing, in listing order. */
  function LoadAll(models: map<string, Model>, files: seq<string>): (r: map<string, Model>)
    ensures models.Keys <= r.Keys
    decreases |files|
  {
    if files == [] then models else Register(LoadAll(models, files[..|files| - 1]), files[|files| - 1])
  }

  /** The loading loop one file further along the listing. */
  lemma LoadAllStep(models: map<string, Model>, files: seq<string>, i: nat)
    requires i < |files|
    ensures LoadAll(models, files[..i + 1]) == Register(LoadAll(models, files[..i]), files[i])
  {
    assert files[..i + 1][..i] == files[..i];
  }

  /**
    The files whose load raises: `joblib.load` or `load_model` fails only
    on a file the loop actually opens, one that registers.
  */
  function FailingLoads(unreadable: set<string>): (r: set<string>)
    ensures r <= unreadable
  {
    set f | f in unreadable && RegisteredKey(f).Some?
  }

  /** A file fails to load exactly when it is unreadable and registers. */
  lemma FailingLoadsMember(unreadable: set<string>, f: string)
    ensures f in FailingLoads(unreadable) <==> f in unreadable && RegisteredKey(f).Some?
  {
  }

  /** The position of the first file in `failing`, or the listing's length when there is none. */
  function FirstFailure(files: seq<string>, failing: set<string>): (j: nat)
    ensures j <= |files|
    ensures forall k :: 0 <= k < j ==> files[k] !in failing
    ensures j < |files| ==> files[j] in failing
    decreases |files|
  {
    if files == [] || files[0] in failing then 0
    else 1 + FirstFailure(files[1..], failing)
  }

  /** The first failure is pinned down by the files before it loading and the file at it failing. */
  lemma {:induction false} FirstFailureAt(files: seq<string>, failing: set<string>, i: nat)
    requires i <= |files| && forall k :: 0 <= k < i ==> files[k] !in failing
    requires i == |files| || files[i] in failing
    ensures FirstFailure(files, failing) == i
    decreases i
  {
    if i > 0 {
      FirstFailureAt(files[1..], failing, i - 1);
    }
  }

  /** With every listed file readable, the loading loop runs to the end of the listing. */
  lemma AllReadableLoadsAll(files: seq<string>, unreadable: set<string>)
    requires forall k :: 0 <= k < |files| ==> files[k] !in unreadable
    ensures FirstFailure(files, FailingLoads(unreadable)) == |files|
  {
    FirstFailureAt(files, FailingLoads(unreadable), |files|);
  }

  /** The keys a listing registers. */
  ghost function ListingKeys(files: seq<string>): set<string>
  {
    set f | f in files && RegisteredKey(f).Some? :: RegisteredKey(f).value
  }

  lemma ListingKeysSnoc(init: seq<string>, f: string)
    ensures RegisteredKey(f).Some? ==> ListingKeys(init + [f]) == ListingKeys(init) + {RegisteredKey(f).value}
    ensures RegisteredKey(f).None? ==> ListingKeys(init + [f]) == ListingKeys(init)
  {
  }

  /** The keys after a load: the old ones and the key of every registering file. */
  lemma {:induction false} LoadAllKeys(models: map<string, Model>, files: seq<string>)
    ensures LoadAll(models, files).Keys == models.Keys + ListingKeys(files)
  {
    if files != [] {
      var init := files[..|files| - 1];
      LoadAllKeys(models, init);
      assert files == init + [files[|files| - 1]];
      ListingKeysSnoc(init, files[|files| - 1]);
    }
  }

  /** A key loaded from a file names the last file in the listing registering under it. */
  lemma {:induction false} LoadAllLastWins(models: map<string, Model>, files: seq<string>, i: nat)
    requires i < |files| && RegisteredKey(files[i]).Some?
    requires forall j :: i < j < |files| ==> RegisteredKey(files[j]) != RegisteredKey(files[i])
    ensures RegisteredKey(files[i]).value in LoadAll(models, files)
    ensures LoadAll(models, files)[RegisteredKey(files[i]).value] == FromFile(files[i])
  {
    var init := files[..|files| - 1];
    if i < |files| - 1 {
      LoadAllLastWins(models, init, i);
    }
  }

  lemma PklNameRegistered(name: string)
    requires !ContainsSub(name, PklSuffix)
    ensures RegisteredKey(name + PklSuffix) == Some(name)
  {
    PklFilePasses(name);
    PklSuffixHeadUnique();
    RemoveAppended(name, PklSuffix);
  }

  lemma PklFilePasses(name: string)
    ensures EndsWith(name + PklSuffix, ".pkl") && ContainsSub(name + PklSuffix, "model")
  {
    assert (name + PklSuffix)[|name + PklSuffix| - 4..] == ".pkl";
    assert PklSuffix[1..6] == "model";
    ContainsInfix(name, PklSuffix, "model", 1);
  }

  lemma PklSuffixHeadUnique()
    ensures forall i :: 0 < i < |PklSuffix| ==> PklSuffix[i] != PklSuffix[0]
  {
  }

  lemma H5NameRegistered(name: string)
    requires !ContainsSub(name, H5Suffix)
    ensures RegisteredKey(name + H5Suffix) == Some(name)
  {
    H5FilePasses(name);
    H5SuffixHeadUnique();
    RemoveAppended(name, H5Suffix);
  }

  lemma H5FilePasses(name: string)
    ensures EndsWith(name + H5Suffix, ".h5") && !EndsWith(name + H5Suffix, ".pkl")
  {
    var f := name + H5Suffix;
    assert f[|f| - 3..] == ".h5";
    assert f[|f| - 1] == '5';
  }

  lemma H5SuffixHeadUnique()
    ensures forall i :: 0 < i < |H5Suffix| ==> H5Suffix[i] != H5Suffix[0]
  {
  }

  /** The performance file passes the pickle test, so loading registers it as a model under its own name. */
  lemma PerformanceFileRegistered()
    ensures RegisteredKey(PerformanceFile) == Some(PerformanceFile)
  {
    PerformanceFileIsPickle();
    NoPklSuffixInPerformance();
  }

  lemma PerformanceFileIsPickle()
    ensures EndsWith(PerformanceFile, ".pkl") && ContainsSub(PerformanceFile, "model")
  {
    var p := PerformanceFile;
    assert p[..5] == "model";
    assert p[|p| - 4..] == ".pkl";
  }

  lemma NoPklSuffixInPerformance()
    ensures !ContainsSub(PerformanceFile, PklSuffix)
  {
    UnderscoreNotInModel();
    NoPklSuffixAfterUnderscore();
    SkipPrefix("model", "_performance.pkl", PklSuffix);
  }

  lemma UnderscoreNotInModel()
    ensures PklSuffix[0] !in "model"
  {
  }

  lemma NoPklSuffixAfterUnderscore()
    ensures !ContainsSub("_performance.pkl", PklSuffix)
  {
    var rest := "_performance.pkl";
    assert rest[..|PklSuffix|][1] != PklSuffix[1];
    assert rest[1..] == "performance.pkl";
    NoPklSuffixInTail();
  }

  lemma NoPklSuffixInTail()
    ensures !ContainsSub("performance.pkl", PklSuffix)
  {
    SkipPrefix("performance.pkl", [], PklSuffix);
    assert "performance.pkl" + [] == "performance.pkl";
  }

  /** An occurrence of `t` in `a + b` must start in `b` when `a` lacks `t`'s first character. */
  lemma {:induction false} SkipPrefix(a: string, b: string, t: string)
    requires |t| > 0 && t[0] !in a && !ContainsSub(b, t)
    ensures !ContainsSub(a + b, t)
    decreases |a|
  {
    if a != [] {
      assert (a + b)[0] == a[0] && a[0] in a;
      assert a == [a[0]] + a[1..];
      assert (a + b)[1..] == a[1..] + b;
      SkipPrefix(a[1..], b, t);
    } else {
      assert a + b == b;
    }
  }

  /** A saved model file is loaded back under the model's name. */
  lemma SavedNameRegistered(n: string)
    requires !ContainsSub(n, PklSuffix) && !ContainsSub(n, H5Suffix)
    ensures RegisteredKey(SaveFileName(n)) == Some(n)
  {
    if n == "lstm" || n == "cnn" {
      H5NameRegistered(n);
    } else {
      PklNameRegistered(n);
    }
  }

  lemma ListingKeysCoverNames(names: set<string>, listing: seq<string>)
    requires forall n :: n in names ==> !ContainsSub(n, PklSuffix) && !ContainsSub(n, H5Suffix)
    requires forall f :: f in listing <==> f in SavedFiles(names)
    ensures names + {PerformanceFile} <= ListingKeys(listing)
  {
    forall n | n in names
      ensures n in ListingKeys(listing)
    {
      SavedNameRegistered(n);
      assert SaveFileName(n) in ModelFiles(names);
      assert SaveFileName(n) in listing;
    }
    PerformanceFileRegistered();
    assert PerformanceFile in listing;
  }

  lemma ListingKeysWithinNames(names: set<string>, listing: seq<string>)
    requires forall n :: n in names ==> !ContainsSub(n, PklSuffix) && !ContainsSub(n, H5Suffix)
    requires forall f :: f in listing <==> f in SavedFiles(names)
    ensures ListingKeys(listing) <= names + {PerformanceFile}
  {
    forall k | k in ListingKeys(listing)
      ensures k in names + {PerformanceFile}
    {
      var f :| f in listing && RegisteredKey(f).Some? && RegisteredKey(f).value == k;
      if f == PerformanceFile {
        PerformanceFileRegistered();
      } else {
        assert f in ModelFiles(names);
        var n :| n in names && f == SaveFileName(n);
        SavedNameRegistered(n);
      }
    }
  }

  /**
    Round trip: saving the models and loading the directory back restores
    exactly their keys, plus a key for the performance file, as long as no
    model name contains its own file suffix.
  */
  lemma SaveLoadRoundTrip(names: set<string>, listing: seq<string>)
    requires forall n :: n in names ==> !ContainsSub(n, PklSuffix) && !ContainsSub(n, H5Suffix)
    requires forall f :: f in listing <==> f in SavedFiles(names)
    ensures LoadAll(map[], listing).Keys == names + {PerformanceFile}
  {
    LoadAllKeys(map[], listing);
    ListingKeysCoverNames(names, listing);
    ListingKeysWithinNames(names, listing);
  }

  // ---------------------------------------------------------------------------
  // Ensemble

  /** The models consulted by an ensemble prediction, in the order they are consulted. */
  const EnsembleKeys: seq<string> := ["random_forest", "svm", "lstm"]

  /** `ensemble_predict`: the average over the consulted models' predictions (None when there are none), and those predictions. */
  datatype Ensemble = Ensemble(average: Option<seq<string>>, predictions: seq<string>)

  function Members(models: map<string, Model>, keys: seq<string>): (r: seq<string>)
    ensures forall k :: k in r <==> k in keys && k in models
  {
    if keys == [] then []
    else (if keys[0] in models then [keys[0]] else []) + Members(models, keys[1..])
  }

  function EnsemblePredict(models: map<string, Model>): (r: Ensemble)
    ensures forall k :: k in r.predictions <==> k in EnsembleKeys && k in models
    ensures r.average.None? <==> "random_forest" !in models && "svm" !in models && "lstm" !in models
    ensures r.average.Some? ==> r.average.value == r.predictions
  {
    var ms := Members(models, EnsembleKeys);
    assert EnsembleKeys[0] == "random_forest" && EnsembleKeys[1] == "svm" && EnsembleKeys[2] == "lstm";
    if ms == [] then Ensemble(None, ms)
    else
      assert ms[0] in ms;
      Ensemble(Some(ms), ms)
  }

  /** A loaded 'cnn' model is never consulted: the ensemble is the same with or without it. */
  lemma CnnNeverConsulted(models: map<string, Model>, cnn: Model)
    ensures EnsemblePredict(models["cnn" := cnn]) == EnsemblePredict(models - {"cnn"})
  {
    var with := models["cnn" := cnn];
    var without := models - {"cnn"};
    assert Members(with, EnsembleKeys[2..]) == Members(without, EnsembleKeys[2..]);
    assert Members(with, EnsembleKeys[1..]) == Members(without, EnsembleKeys[1..]);
    assert Members(with, EnsembleKeys) == Members(without, EnsembleKeys);
  }

  // ---------------------------------------------------------------------------
  // The manager

  class MLModelManager {
    var models: map<string, Model>
    var performanceLoaded: bool

    constructor ()
      ensures models == map[] && !performanceLoaded
    {
      models := map[];
      performanceLoaded := false;
    }

    /** `save_models`: the set of files written into the directory. */
    method SaveModels() returns (written: set<string>)
      ensures written == SavedFiles(models.Keys)
    {
      written := {};
      var rest := models.Keys;
      while rest != {}
        invariant rest <= models.Keys
        invariant written == ModelFiles(models.Keys - rest)
        decreases |rest|
      {
        var n :| n in rest;
        assert written + {SaveFileName(n)} == ModelFiles(models.Keys - (rest - {n})) by {
          ModelFilesAdd(models.Keys - rest, n);
          assert (models.Keys - rest) + {n} == models.Keys - (rest - {n});
        }
        written := written + {SaveFileName(n)};
        rest := rest - {n};
      }
      assert models.Keys - rest == models.Keys;
      written := written + {PerformanceFile};
    }

    /**
      `load_models` over a directory listing: every registering file is
      loaded under its key, later files overwriting earlier ones, and the
      performance metrics are read when their file is present.  A file in
      `unreadable` raises when loaded: the loop stops there with the files
      before it registered, the metrics are not read, and `completed` is
      false.
    */
    method LoadModels(listing: seq<string>, unreadable: set<string>) returns (completed: bool)
      modifies this`models, this`performanceLoaded
      ensures completed <==> FirstFailure(listing, FailingLoads(unreadable)) == |listing|
      ensures models == LoadAll(old(models), listing[..FirstFailure(listing, FailingLoads(unreadable))])
      ensures completed ==> performanceLoaded == (old(performanceLoaded) || PerformanceFile in listing)
      ensures !completed ==> performanceLoaded == old(performanceLoaded)
    {
      ghost var failing := FailingLoads(unreadable);
      var i := 0;
      var failed := false;
      while i < |listing| && !failed
        invariant i <= |listing|
        invariant models == LoadAll(old(models), listing[..i])
        invariant forall k :: 0 <= k < i ==> listing[k] !in failing
        invariant failed ==> i < |listing| && listing[i] in failing
        invariant performanceLoaded == old(performanceLoaded)
        decreases |listing| - i, !failed
      {
        var loaded := LoadFile(listing[i], unreadable);
        if loaded {
          LoadAllStep(old(models), listing, i);
          i := i + 1;
        } else {
          failed := true;
        }
      }
      FirstFailureAt(listing, failing, i);
      completed := !failed;
      if completed {
        assert listing[..|listing|] == listing;
        LoadPerformance(listing);
      }
    }

    /** The metrics are read after the loop when their file is in the directory. */
    method LoadPerformance(listing: seq<string>)
      modifies this`performanceLoaded
      ensures performanceLoaded == (old(performanceLoaded) || PerformanceFile in listing)
    {
      if PerformanceFile in listing {
        performanceLoaded := true;
      }
    }

    /** One iteration of `load_models`' loop: register the file, or raise when it cannot be read. */
    method LoadFile(f: string, unreadable: set<string>) returns (loaded: bool)
      modifies this`models
      ensures loaded <==> f !in FailingLoads(unreadable)
      ensures loaded ==> models == Register(old(models), f)
      ensures !loaded ==> models == old(models)
    {
      FailingLoadsMember(unreadable, f);
      loaded := true;
      if EndsWith(f, ".pkl") && ContainsSub(f, "model") {
        if f in unreadable {
          return false;
        }
        models := models[RemoveAll(f, PklSuffix) := FromFile(f)];
      } else if EndsWith(f, ".h5") {
        if f in unreadable {
          return false;
        }
        models := models[RemoveAll(f, H5Suffix) := FromFile(f)];
      }
    }

    function Predict(): (r: Ensemble)
      reads this
      ensures r.average.None? <==> forall k :: k in EnsembleKeys ==> k !in models
    {
      EnsemblePredict(models)
    }
  }
}
