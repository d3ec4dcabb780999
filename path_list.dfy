/** `_add_to_path`: put a directory at the front of a `PATH`-style list of
    directories unless it is already one of its entries. */
module PathList {
  import opened PyStrings

  /** Whether `directory` is already an entry of `path`: exactly, or, on
      Windows, after both are lower-cased by `lower`. */
  predicate IsEntry(directory: string, path: string, sep: char, isWindows: bool, lower: string -> string)
  {
    directory in Split(path, sep)
    || (isWindows && lower(directory) in Split(lower(path), sep))
  }

  /** `_add_to_path(directory, path)` with `os.pathsep` as `sep`, `platform.system()
      == "Windows"` as `isWindows` and `str.lower` as `lower`. */
  function AddToPath(directory: string, path: string, sep: char, isWindows: bool, lower: string -> string): string
  {
    if IsEntry(directory, path, sep, isWindows, lower) then path
    else directory + [sep] + path
  }

  /** The path comes back unchanged exactly when the directory is already an
      entry (case-insensitively on Windows). */
  lemma UnchangedIffEntry(directory: string, path: string, sep: char, isWindows: bool, lower: string -> string)
    ensures AddToPath(directory, path, sep, isWindows, lower) == path
        <==> IsEntry(directory, path, sep, isWindows, lower)
  {
  }

  /** When the directory is not an entry, it is prepended: the result starts
      with the directory and a separator, ends with the old path, and, for a
      directory without a separator in it, lists exactly one more entry, the
      directory, in front of the old ones. */
  lemma PrependsNewEntry(directory: string, path: string, sep: char, isWindows: bool, lower: string -> string)
    requires !IsEntry(directory, path, sep, isWindows, lower)
    ensures var r := AddToPath(directory, path, sep, isWindows, lower);
      && StartsWith(r, directory + [sep])
      && EndsWith(r, path)
      && |r| == |directory| + 1 + |path|
      && (sep !in directory ==> Split(r, sep) == [directory] + Split(path, sep))
  {
    var r := AddToPath(directory, path, sep, isWindows, lower);
    assert r == directory + [sep] + path;
    assert r[..|directory| + 1] == directory + [sep];
    assert r[|r| - |path|..] == path;
    if sep !in directory {
      SplitPrefix(directory, sep, path);
    }
  }

  /** Afterwards a directory without a separator in it is always an entry
      (on Windows possibly only case-insensitively, when it was one before). */
  lemma BecomesEntry(directory: string, path: string, sep: char, isWindows: bool, lower: string -> string)
    requires sep !in directory
    ensures IsEntry(directory, AddToPath(directory, path, sep, isWindows, lower), sep, isWindows, lower)
  {
    if !IsEntry(directory, path, sep, isWindows, lower) {
      PrependsNewEntry(directory, path, sep, isWindows, lower);
    }
  }

  /** Adding a directory without a separator in it twice is the same as
      adding it once. */
  lemma Idempotent(directory: string, path: string, sep: char, isWindows: bool, lower: string -> string)
    requires sep !in directory
    ensures var once := AddToPath(directory, path, sep, isWindows, lower);
      AddToPath(directory, once, sep, isWindows, lower) == once
  {
    BecomesEntry(directory, path, sep, isWindows, lower);
  }

  /** A directory that contains the separator is never an entry of any split
      path, so it is prepended again on every call: idempotence needs the
      separator-free directory. */
  lemma NotIdempotentWithSeparator(directory: string, path: string, sep: char, isWindows: bool, lower: string -> string)
    requires sep in directory
    requires isWindows ==> sep in lower(directory)
    ensures var once := AddToPath(directory, path, sep, isWindows, lower);
      AddToPath(directory, once, sep, isWindows, lower) != once
  {
    var once := AddToPath(directory, path, sep, isWindows, lower);
    NeverAnEntry(directory, once, sep, isWindows, lower);
    assert |AddToPath(directory, once, sep, isWindows, lower)| > |once|;
  }

  /** No piece of a split holds the separator, so such a directory is never
      found among the pieces. */
  lemma NeverAnEntry(directory: string, path: string, sep: char, isWindows: bool, lower: string -> string)
    requires sep in directory
    requires isWindows ==> sep in lower(directory)
    ensures !IsEntry(directory, path, sep, isWindows, lower)
  {
  }
}
