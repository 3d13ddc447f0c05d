/** The renderer build's output naming: the `flatten-output` plugin's
    `generateBundle` hook, which moves the two HTML entry pages to the top
    of the output under fixed names, and the `assetFileNames` rule. */
module FlattenOutput {
  import opened Wrappers

  /** An emitted file; the hook moves it to a new key and leaves it as it is. */
  datatype OutputItem = OutputItem(fileName: string, source: string)

  const MainEntry: string := "src/renderer/main/index.html"
  const WebviewEntry: string := "src/renderer/webview/index.html"
  const MainPage: string := "main.html"
  const WebviewPage: string := "webview.html"

  /** `s.includes(p)` */
  predicate Includes(s: string, p: string)
    decreases |s|
  {
    if |s| < |p| then false else p <= s || Includes(s[1..], p)
  }

  /** `s.endsWith(suffix)` */
  predicate EndsWith(s: string, suffix: string) {
    |suffix| <= |s| && s[|s| - |suffix|..] == suffix
  }

  /** The key a bundle entry is moved to, if any. */
  function RenamedTo(key: string): (r: Option<string>)
    ensures r.Some? ==> r.value == MainPage || r.value == WebviewPage
  {
    if Includes(key, MainEntry) then Some(MainPage)
    else if Includes(key, WebviewEntry) then Some(WebviewPage)
    else None
  }

  /** Text that contains a pattern anywhere includes it. */
  lemma {:induction false} IncludesInside(before: string, p: string, after: string)
    ensures Includes(before + p + after, p)
    decreases |before|
  {
    var s := before + p + after;
    if before == [] {
      assert s == p + after;
      assert p <= s;
    } else {
      assert s[1..] == before[1..] + p + after;
      IncludesInside(before[1..], p, after);
    }
  }

  /** `p` occurs in `s` starting at index `i`. */
  predicate OccursAt(s: string, p: string, i: nat) {
    i + |p| <= |s| && s[i..i + |p|] == p
  }

  /** A slice of the text after its first character is a slice of the text. */
  lemma TailSlice(s: string, i: nat, n: nat)
    requires 0 < |s| && i + 1 + n <= |s|
    ensures s[1..][i..i + n] == s[i + 1..i + 1 + n]
  {
  }

  /** `includes` holds exactly when the pattern occurs somewhere in the text. */
  lemma {:induction false} IncludesExactlyOccurrences(s: string, p: string)
    ensures Includes(s, p) <==> exists i: nat :: OccursAt(s, p, i)
    decreases |s|
  {
    if |s| < |p| {
    } else if p <= s {
      assert s[0..|p|] == p;
      assert OccursAt(s, p, 0);
    } else {
      IncludesExactlyOccurrences(s[1..], p);
      if Includes(s[1..], p) {
        var i: nat :| OccursAt(s[1..], p, i);
        TailSlice(s, i, |p|);
        assert OccursAt(s, p, i + 1);
      }
      if exists i: nat :: OccursAt(s, p, i) {
        var i: nat :| OccursAt(s, p, i);
        if i == 0 {
          assert false;
        }
        TailSlice(s, i - 1, |p|);
        assert OccursAt(s[1..], p, i - 1);
      }
    }
  }

  /** Bundle keys in which an entry page's source path occurs are renamed to that page. */
  lemma EntryKeysRenamed(before: string, after: string)
    ensures RenamedTo(before + MainEntry + after) == Some(MainPage)
    ensures !Includes(before + WebviewEntry + after, MainEntry) ==>
              RenamedTo(before + WebviewEntry + after) == Some(WebviewPage)
  {
    IncludesInside(before, MainEntry, after);
    IncludesInside(before, WebviewEntry, after);
  }

  /** The page names are never renamed themselves. */
  lemma PagesStay()
    ensures RenamedTo(MainPage).None? && RenamedTo(WebviewPage).None?
  {
  }

  predicate Distinct(ks: seq<string>) {
    forall i, j :: 0 <= i < j < |ks| ==> ks[i] != ks[j]
  }

  /** One call of the `forEach` callback on the bundle object. A key that is
      no longer in the bundle is left alone here, where the callback would
      store `undefined` under the page name; that case never arises in
      `GenerateBundle`, since `FlattenEntry` is only called for a key still in
      the bundle and `LaterKeysStay` shows every later key stays there. */
  function Step(m: map<string, OutputItem>, key: string): (r: map<string, OutputItem>)
    ensures r.Keys <= m.Keys + {MainPage, WebviewPage}
    ensures key !in m || RenamedTo(key).None? ==> r == m
    ensures key in m && RenamedTo(key).Some? ==>
              var target := RenamedTo(key).value;
              key !in r && target in r && r[target] == m[key] &&
              forall k :: k in m && k != key && k != target ==> k in r && r[k] == m[k]
  {
    match RenamedTo(key)
    case None => m
    case Some(target) =>
      PagesStay();
      if key in m then (m - {key})[target := m[key]] else m
  }

  /** The bundle after the callback has run for each key of the snapshot, in order. */
  function Flatten(m: map<string, OutputItem>, ks: seq<string>): (r: map<string, OutputItem>)
    ensures r.Keys <= m.Keys + {MainPage, WebviewPage}
    decreases |ks|
  {
    if ks == [] then m else Flatten(Step(m, ks[0]), ks[1..])
  }

  /** The bundle object, updated in place by the hook. */
  class Bundle {
    var entries: map<string, OutputItem>

    constructor (entries: map<string, OutputItem>)
      ensures this.entries == entries
    {
      this.entries := entries;
    }

    /** `delete bundle[key]` */
    method Delete(key: string)
      modifies this
      ensures entries == old(entries) - {key}
    {
      entries := entries - {key};
    }

    /** `bundle[key] = item` */
    method Set(key: string, item: OutputItem)
      modifies this
      ensures entries == old(entries)[key := item]
    {
      entries := entries[key := item];
    }
  }

  /** Running the callback for the key at `i` leaves the keys after it to run. */
  lemma FlattenFrom(m: map<string, OutputItem>, ks: seq<string>, i: nat)
    requires i < |ks|
    ensures Flatten(m, ks[i..]) == Flatten(Step(m, ks[i]), ks[i + 1..])
  {
    assert ks[i..][0] == ks[i] && ks[i..][1..] == ks[i + 1..];
  }

  /** The callback for one key of the snapshot leaves every later key in the bundle. */
  lemma LaterKeysStay(m: map<string, OutputItem>, ks: seq<string>, i: nat)
    requires Distinct(ks) && i < |ks|
    requires forall j :: i <= j < |ks| ==> ks[j] in m
    ensures forall j :: i + 1 <= j < |ks| ==> ks[j] in Step(m, ks[i])
  {
    forall j | i + 1 <= j < |ks|
      ensures ks[j] in Step(m, ks[i])
    {
      assert ks[i] != ks[j];
    }
  }

  /** The callback `forEach` runs for one key: moves the entry to its page
      name when the key contains an entry page's source path. */
  method FlattenEntry(bundle: Bundle, fileName: string)
    requires fileName in bundle.entries
    modifies bundle
    ensures bundle.entries == Step(old(bundle.entries), fileName)
  {
    if Includes(fileName, MainEntry) {
      var asset := bundle.entries[fileName];
      bundle.Delete(fileName);
      bundle.Set(MainPage, asset);
    } else if Includes(fileName, WebviewEntry) {
      var asset := bundle.entries[fileName];
      bundle.Delete(fileName);
      bundle.Set(WebviewPage, asset);
    }
  }

  /** `generateBundle(options, bundle)`: runs the callback for every key of
      `Object.keys(bundle)`, taken before any change. */
  method GenerateBundle(bundle: Bundle, keys: seq<string>)
    requires Distinct(keys)
    requires forall k :: k in keys <==> k in bundle.entries
    modifies bundle
    ensures bundle.entries == Flatten(old(bundle.entries), keys)
  {
    ghost var start := bundle.entries;
    var i := 0;
    while i < |keys|
      invariant 0 <= i <= |keys|
      invariant Flatten(start, keys) == Flatten(bundle.entries, keys[i..])
      invariant forall j :: i <= j < |keys| ==> keys[j] in bundle.entries
    {
      FlattenFrom(bundle.entries, keys, i);
      LaterKeysStay(bundle.entries, keys, i);
      FlattenEntry(bundle, keys[i]);
      i := i + 1;
    }
  }

  /** The hook never adds entries: the bundle has at most as many entries as before. */
  lemma {:induction false} FlattenNeverGrows(m: map<string, OutputItem>, ks: seq<string>)
    ensures |Flatten(m, ks)| <= |m|
    decreases |ks|
  {
    if ks != [] {
      var k := ks[0];
      var next := Step(m, k);
      if RenamedTo(k).Some? && k in m {
        var target := RenamedTo(k).value;
        assert (m - {k}).Keys == m.Keys - {k};
        assert next.Keys == (m.Keys - {k}) + {target};
        assert |m.Keys - {k}| == |m.Keys| - 1;
        assert |next.Keys| <= |m.Keys - {k}| + 1;
      }
      FlattenNeverGrows(next, ks[1..]);
    }
  }

  /** A key that is neither renamed nor one of the page names keeps its entry. */
  lemma {:induction false} UnmatchedKeyKept(m: map<string, OutputItem>, ks: seq<string>, key: string)
    requires key in m && RenamedTo(key).None?
    requires key != MainPage && key != WebviewPage
    ensures key in Flatten(m, ks) && Flatten(m, ks)[key] == m[key]
    decreases |ks|
  {
    if ks != [] {
      UnmatchedKeyKept(Step(m, ks[0]), ks[1..], key);
    }
  }

  /** A renamed key, once gone, never comes back. */
  lemma {:induction false} RenamedKeyStaysGone(m: map<string, OutputItem>, ks: seq<string>, key: string)
    requires key !in m && RenamedTo(key).Some?
    ensures key !in Flatten(m, ks)
    decreases |ks|
  {
    if ks != [] {
      RenamedKeyStaysGone(Step(m, ks[0]), ks[1..], key);
    }
  }

  /** Every key of the snapshot that contains an entry page's path is gone afterwards. */
  lemma {:induction false} MatchedKeyRemoved(m: map<string, OutputItem>, ks: seq<string>, key: string)
    requires key in ks && RenamedTo(key).Some?
    ensures key !in Flatten(m, ks)
    decreases |ks|
  {
    if ks[0] == key {
      RenamedKeyStaysGone(Step(m, key), ks[1..], key);
    } else {
      MatchedKeyRemoved(Step(m, ks[0]), ks[1..], key);
    }
  }

  /** A page entry that no later key is renamed to keeps its item. */
  lemma {:induction false} PageKept(m: map<string, OutputItem>, ks: seq<string>, page: string)
    requires page == MainPage || page == WebviewPage
    requires page in m
    requires forall j :: 0 <= j < |ks| ==> RenamedTo(ks[j]) != Some(page)
    ensures page in Flatten(m, ks) && Flatten(m, ks)[page] == m[page]
    decreases |ks|
  {
    if ks != [] {
      PagesStay();
      PageKept(Step(m, ks[0]), ks[1..], page);
    }
  }

  /** The entry stored under a page name is the item of the last snapshot
      key renamed to it: when two keys map to the same name, the later wins. */
  lemma {:induction false} LastRenamedWins(m: map<string, OutputItem>, ks: seq<string>, i: nat)
    requires Distinct(ks)
    requires i < |ks| && ks[i] in m && RenamedTo(ks[i]).Some?
    requires forall j :: i < j < |ks| ==> RenamedTo(ks[j]) != RenamedTo(ks[i])
    ensures var page := RenamedTo(ks[i]).value;
            page in Flatten(m, ks) && Flatten(m, ks)[page] == m[ks[i]]
    decreases i
  {
    var page := RenamedTo(ks[i]).value;
    if i == 0 {
      PageKept(Step(m, ks[0]), ks[1..], page);
    } else {
      PagesStay();
      assert ks[0] != ks[i];
      assert Step(m, ks[0])[ks[i]] == m[ks[i]];
      LastRenamedWins(Step(m, ks[0]), ks[1..], i - 1);
    }
  }

  /** The `name` field the `assetFileNames` option receives. */
  datatype AssetInfo = AssetInfo(name: Option<string>)

  /** `assetFileNames`: HTML assets go to the top level under their own name,
      every other asset (one without a name too) under `assets/` with a hash. */
  function AssetFileNames(info: AssetInfo): (r: string)
    ensures r == "[name].html" <==> info.name.Some? && EndsWith(info.name.value, ".html")
    ensures r != "[name].html" ==> r == "assets/[name]-[hash].[ext]"
  {
    if info.name.Some? && info.name.value != "" && EndsWith(info.name.value, ".html")
    then "[name].html"
    else "assets/[name]-[hash].[ext]"
  }
}
