/** Object keys (internal/recorder/session.go withSuffix, internal/recorder/upload.go): the "-2", "-3" escape names and
    the raw fallback's name. */
module ObjectKeys {
  import opened Strings

  type Key = string

  const OBJECT_EXT: string := ".m4a"

  // How often a group may be moved to another key.
  const MAX_RENAMES: nat := 3

  /** filepath.Ext: from the last dot of the last path element on, "" when that has none. Looks at key[..i]. */
  function ExtFrom(key: Key, i: nat): (at: nat)
    requires i <= |key|
    ensures at <= |key|
    ensures at < |key| ==> at < i && key[at] == '.' && forall j :: at < j < i ==> key[j] != '.' && key[j] != '/'
    ensures at == |key| ==> forall j :: 0 <= j < i && key[j] == '.' ==> exists k :: j < k < i && key[k] == '/'
    decreases i
  {
    if i == 0 || key[i - 1] == '/' then |key|
    else if key[i - 1] == '.' then i - 1
    else ExtFrom(key, i - 1)
  }

  function Ext(key: Key): (ext: string)
  {
    key[ExtFrom(key, |key|)..]
  }

  /** withSuffix: the suffix goes before the extension. */
  function WithSuffix(key: Key, suffix: string): (k: Key)
    ensures |k| == |key| + |suffix|
  {
    var at := ExtFrom(key, |key|);
    key[..at] + suffix + key[at..]
  }

  /** The key a group moves to when it has been renamed `renames` times: "-2", then "-3", ... */
  function RenamedKey(key: Key, renames: nat): (k: Key)
    ensures |k| > |key| + 1
  {
    WithSuffix(key, "-" + Itoa(renames + 2))
  }

  /** The raw capture's key: .aac instead of .m4a. */
  function FallbackKey(key: Key): (k: Key)
  {
    (if |key| >= 4 && key[|key| - 4..] == OBJECT_EXT then key[..|key| - 4] else key) + ".aac"
  }

  /** A dot decides ExtFrom alone. */
  lemma {:induction false} ExtFromIs(key: Key, i: nat, at: nat)
    requires at < i <= |key| && key[at] == '.' && forall j :: at < j < i ==> key[j] != '.' && key[j] != '/'
    ensures ExtFrom(key, i) == at
    decreases i
  {
    if i - 1 > at {
      ExtFromIs(key, i - 1, at);
    }
  }

  lemma {:induction false} NoExt(key: Key, i: nat)
    requires i <= |key| && forall j :: 0 <= j < i && key[j] == '.' ==> exists k :: j < k < i && key[k] == '/'
    ensures ExtFrom(key, i) == |key|
    decreases i
  {
    if i > 0 && key[i - 1] != '/' {
      assert key[i - 1] != '.';
      NoExt(key, i - 1);
    }
  }

  /** A suffix without a dot or slash keeps the extension, and the key it came from can be read back. */
  lemma SuffixKeepsExt(key: Key, suffix: string)
    requires '.' !in suffix && '/' !in suffix
    ensures Ext(WithSuffix(key, suffix)) == Ext(key)
  {
    var at, n := ExtFrom(key, |key|), |suffix|;
    var k := WithSuffix(key, suffix);
    if at < |key| {
      assert forall j :: at + n < j < |k| ==> k[j] == key[j - n];
      ExtFromIs(k, |k|, at + n);
      assert k[at + n..] == key[at..];
    } else {
      assert forall j :: 0 <= j < |key| ==> k[j] == key[j];
      forall j | 0 <= j < |k| && k[j] == '.'
        ensures exists i :: j < i < |k| && k[i] == '/'
      {
        assert j < |key|;
        var i :| j < i < |key| && key[i] == '/';
        assert k[i] == '/';
      }
      NoExt(k, |k|);
    }
  }

  lemma RenamedKeepsExt(key: Key, renames: nat)
    ensures Ext(RenamedKey(key, renames)) == Ext(key)
  {
    var s := Itoa(renames + 2);
    assert forall i :: 0 <= i < |s| ==> IsDigit(s[i]);
    SuffixKeepsExt(key, "-" + s);
  }

  /** keys[i + 1] is the rename of keys[i], with counters that need not agree. */
  predicate RenameChain(keys: seq<Key>, counts: seq<nat>) {
    |counts| == |keys| && forall i :: 0 <= i < |keys| - 1 ==> keys[i + 1] == RenamedKey(keys[i], counts[i])
  }

  /** A group never comes back to a key it has left. */
  lemma {:induction false} RenamesNeverReturn(keys: seq<Key>, counts: seq<nat>, i: nat, j: nat)
    requires RenameChain(keys, counts) && i < j < |keys|
    ensures |keys[i]| < |keys[j]| && keys[i] != keys[j] && Ext(keys[j]) == Ext(keys[i])
    decreases j
  {
    RenamedKeepsExt(keys[j - 1], counts[j - 1]);
    assert keys[j - 1 + 1] == RenamedKey(keys[j - 1], counts[j - 1]);
    if i < j - 1 {
      RenamesNeverReturn(keys, counts, i, j - 1);
    }
  }

  /** What filepath.Ext can return: nothing, or a dot and no further dot or slash. */
  predicate IsExt(ext: string) {
    ext == "" || (ext[0] == '.' && forall i :: 0 < i < |ext| ==> ext[i] != '.' && ext[i] != '/')
  }

  /** Behind its last slash, if any, the path has no dot. */
  predicate NoDot(path: string) {
    forall j :: 0 <= j < |path| && path[j] == '.' ==> exists k :: j < k < |path| && path[k] == '/'
  }

  /** Directory and stem stay in front of the suffix, the extension behind it. */
  lemma SuffixGoesBeforeExt(front: string, ext: string, suffix: string)
    requires IsExt(ext) && (ext == "" ==> NoDot(front))
    ensures WithSuffix(front + ext, suffix) == front + suffix + ext && Ext(front + ext) == ext
  {
    var key := front + ext;
    if ext == "" {
      assert key == front;
      NoExt(key, |key|);
    } else {
      assert forall j :: |front| < j < |key| ==> key[j] == ext[j - |front|];
      ExtFromIs(key, |key|, |front|);
    }
    assert key[..|front|] == front && key[|front|..] == ext;
  }

  /** The escape names: "-2" in front of the extension, then "-3", ... */
  lemma EscapeNames(front: string, ext: string, renames: nat)
    requires IsExt(ext) && (ext == "" ==> NoDot(front))
    ensures RenamedKey(front + ext, renames) == front + "-" + Itoa(renames + 2) + ext
    ensures RenamedKey(front + ext, 0) == front + "-2" + ext
    ensures var n := Atoi(Itoa(renames + 2)); n.Some? && n.value == renames + 2
  {
    SuffixGoesBeforeExt(front, ext, "-" + Itoa(renames + 2));
    SuffixGoesBeforeExt(front, ext, "-" + Itoa(2));
    AtoiItoa(renames + 2);
    assert Itoa(2) == "2";
    assert front + ("-" + "2") == front + "-2";
    assert front + ("-" + Itoa(renames + 2)) == front + "-" + Itoa(renames + 2);
  }

  /** The fallback is named after the object: .aac in place of .m4a, or behind a name that does not end like that. */
  lemma FallbackNames(front: string)
    ensures FallbackKey(front + ".m4a") == front + ".aac"
    ensures !(|front| >= 4 && front[|front| - 4..] == ".m4a") ==> FallbackKey(front) == front + ".aac"
  {
    var key := front + ".m4a";
    assert key[..|key| - 4] == front && key[|key| - 4..] == ".m4a";
  }
}
