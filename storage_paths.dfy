/**
 * The storage tracer's path classification: a C-string prefix test and the
 * five mount prefixes that count as external storage.
 */
module StoragePaths {
  const EXTERNAL_STORAGE_PATH_SDCARD: string := "/mnt/sdcard/"
  const EXTERNAL_STORAGE_PATH_STORAGE: string := "/storage/self/primary/"
  const EXTERNAL_STORAGE_PATH_MEDIA: string := "/data/media/0/"
  const EXTERNAL_STORAGE_PATH_EMULATED: string := "/storage/emulated/0/"
  const EXTERNAL_STORAGE_PATH_MNT: string := "/mnt/user/0/primary/"

  const EXTERNAL_PREFIXES: seq<string> :=
    [EXTERNAL_STORAGE_PATH_SDCARD, EXTERNAL_STORAGE_PATH_STORAGE, EXTERNAL_STORAGE_PATH_MEDIA,
     EXTERNAL_STORAGE_PATH_EMULATED, EXTERNAL_STORAGE_PATH_MNT]

  /** `prefix` is an initial segment of `s`. */
  predicate IsPrefix(prefix: string, s: string) {
    |prefix| <= |s| && s[..|prefix|] == prefix
  }

  /** The path lies under one of the external-storage mount prefixes. */
  predicate External(path: string) {
    exists i :: 0 <= i < |EXTERNAL_PREFIXES| && IsPrefix(EXTERNAL_PREFIXES[i], path)
  }

  /** starts_with: false when the string is shorter than the prefix,
   *  otherwise a character-by-character comparison. */
  method StartsWith(str: string, prefix: string) returns (b: bool)
    ensures b <==> IsPrefix(prefix, str)
  {
    if |str| < |prefix| {
      return false;
    }
    var i := 0;
    while i < |prefix|
      invariant 0 <= i <= |prefix|
      invariant str[..i] == prefix[..i]
    {
      if str[i] != prefix[i] {
        return false;
      }
      assert str[..i + 1] == str[..i] + [str[i]];
      assert prefix[..i + 1] == prefix[..i] + [prefix[i]];
      i := i + 1;
    }
    assert prefix[..i] == prefix;
    return true;
  }

  /** is_on_external_storage: the disjunction of the five prefix tests. */
  method IsOnExternalStorage(path: string) returns (b: bool)
    ensures b <==> External(path)
  {
    var sdcard := StartsWith(path, EXTERNAL_STORAGE_PATH_SDCARD);
    var storage := StartsWith(path, EXTERNAL_STORAGE_PATH_STORAGE);
    var media := StartsWith(path, EXTERNAL_STORAGE_PATH_MEDIA);
    var emulated := StartsWith(path, EXTERNAL_STORAGE_PATH_EMULATED);
    var mnt := StartsWith(path, EXTERNAL_STORAGE_PATH_MNT);
    b := sdcard || storage || media || emulated || mnt;
    assert sdcard ==> IsPrefix(EXTERNAL_PREFIXES[0], path);
    assert storage ==> IsPrefix(EXTERNAL_PREFIXES[1], path);
    assert media ==> IsPrefix(EXTERNAL_PREFIXES[2], path);
    assert emulated ==> IsPrefix(EXTERNAL_PREFIXES[3], path);
    assert mnt ==> IsPrefix(EXTERNAL_PREFIXES[4], path);
  }

  /** The empty prefix matches every string. */
  lemma EmptyPrefixMatches(s: string)
    ensures IsPrefix("", s)
  {
  }

  /** Every prefix ends in '/', so the mount point itself, written without
   *  its trailing slash, is not external storage. */
  lemma BareMountPointIsNotExternal(i: int)
    requires 0 <= i < |EXTERNAL_PREFIXES|
    ensures EXTERNAL_PREFIXES[i][|EXTERNAL_PREFIXES[i]| - 1] == '/'
    ensures !External(EXTERNAL_PREFIXES[i][..|EXTERNAL_PREFIXES[i]| - 1])
  {
    var bare := EXTERNAL_PREFIXES[i][..|EXTERNAL_PREFIXES[i]| - 1];
    forall j | 0 <= j < |EXTERNAL_PREFIXES|
      ensures !IsPrefix(EXTERNAL_PREFIXES[j], bare)
    {
      if i != j {
        var p := FirstDifference(i, j);
        assert bare[p] != EXTERNAL_PREFIXES[j][p];
      }
    }
  }

  /** Two different prefixes part ways before either one ends (they share
   *  "/mnt/" or "/storage/" at most). */
  lemma FirstDifference(i: int, j: int) returns (p: int)
    requires 0 <= i < |EXTERNAL_PREFIXES| && 0 <= j < |EXTERNAL_PREFIXES| && i != j
    ensures 0 <= p < |EXTERNAL_PREFIXES[i]| - 1 && p < |EXTERNAL_PREFIXES[j]|
    ensures EXTERNAL_PREFIXES[i][p] != EXTERNAL_PREFIXES[j][p]
  {
    var mnt := {0, 4};
    var storage := {1, 3};
    if i in mnt && j in mnt {
      p := 5;
    } else if i in storage && j in storage {
      p := 9;
    } else {
      p := 1;
    }
  }

  /** Everything under a prefix, the directory itself included, is external. */
  lemma UnderPrefixIsExternal(i: int, rest: string)
    requires 0 <= i < |EXTERNAL_PREFIXES|
    ensures External(EXTERNAL_PREFIXES[i] + rest)
  {
    assert (EXTERNAL_PREFIXES[i] + rest)[..|EXTERNAL_PREFIXES[i]|] == EXTERNAL_PREFIXES[i];
  }

  /** A relative path is never external storage. */
  lemma RelativeIsNotExternal(path: string)
    requires path == [] || path[0] != '/'
    ensures !External(path)
  {
    forall j | 0 <= j < |EXTERNAL_PREFIXES|
      ensures !IsPrefix(EXTERNAL_PREFIXES[j], path)
    {
      assert EXTERNAL_PREFIXES[j][0] == '/';
    }
  }
}
