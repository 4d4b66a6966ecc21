/**
 * The profile store: one TOML file per named network profile in a profiles
 * directory. File names come from the profile's name by a sanitising rule; the
 * index lists the `.toml` files by stem in a caller-chosen collation order; and
 * rename, delete and save change the directory, which the model holds as a map
 * from file name to file contents.
 */
module ProfileStore {
  import opened Wrappers
  import opened Strings

  // ---------------------------------------------------------------------------
  // File names

  /** The characters `sanitizedFileName` treats as invalid: `/` and `:`. */
  predicate IsPathSeparator(c: char) {
    c == '/' || c == ':'
  }

  predicate IsNameChar(c: char) {
    !IsPathSeparator(c)
  }

  predicate IsNotJoiner(c: char) {
    c != '_'
  }

  /**
   * `sanitizedFileName(_:fallback:)`: trim whitespace and newlines, cut at every
   * `/` and `:`, drop the empty pieces and join the rest with `_`; the fallback
   * when nothing is left.
   */
  function SanitizedFileName(value: string, fallback: string): (r: string)
    ensures Trim(value) == [] ==> r == fallback
    ensures fallback != [] ==> r != []
  {
    var trimmed := Trim(value);
    if trimmed == [] then fallback
    else
      var sanitized := Join(Split(trimmed, IsPathSeparator), '_');
      if sanitized == [] then fallback else sanitized
  }

  /** A name that is empty or only separators after trimming falls back. */
  lemma SanitizedFallback(value: string, fallback: string)
    requires forall c :: c in Trim(value) ==> IsPathSeparator(c)
    ensures SanitizedFileName(value, fallback) == fallback
  {
    SplitEmptyIff(Trim(value), IsPathSeparator, IsNameChar);
  }

  /**
   * Any other name gives the non-empty pieces joined by `_`: a non-empty name
   * with no `/` or `:`, whose characters other than `_` are exactly the trimmed
   * input's characters other than `/`, `:` and `_`, in order.
   */
  lemma SanitizedShape(value: string, fallback: string)
    requires exists c :: c in Trim(value) && !IsPathSeparator(c)
    ensures var r := SanitizedFileName(value, fallback);
      && r == Join(Split(Trim(value), IsPathSeparator), '_')
      && r != []
      && NoneSatisfy(r, IsPathSeparator)
      && Filter(r, IsNotJoiner) == Filter(Filter(Trim(value), IsNameChar), IsNotJoiner)
  {
    var t := Trim(value);
    var ps := Split(t, IsPathSeparator);
    SplitEmptyIff(t, IsPathSeparator, IsNameChar);
    assert ps != [];
    JoinNonEmptyPieces(ps, '_', IsPathSeparator);
    FilterJoin(ps, '_', IsNotJoiner);
    FlattenNonEmpty(Components(t, IsPathSeparator));
    FlattenComponents(t, IsPathSeparator, IsNameChar);
  }

  /**
   * Runs of separators collapse: when the trimmed input has no `_` of its own,
   * the result never has two `_` side by side nor one at either end.
   */
  lemma SanitizedCollapsesSeparators(value: string, fallback: string)
    requires exists c :: c in Trim(value) && !IsPathSeparator(c)
    requires '_' !in Trim(value)
    ensures var r := SanitizedFileName(value, fallback);
      r != [] && r[0] != '_' && r[|r| - 1] != '_' && NoDoubled(r, '_')
  {
    var t := Trim(value);
    var ps := Split(t, IsPathSeparator);
    assert ps != [] by {
      SplitEmptyIff(t, IsPathSeparator, IsNameChar);
    }
    assert forall w :: w in ps ==> w != [] && '_' !in w by {
      forall w | w in ps
        ensures w != [] && '_' !in w
      {
        assert w in Components(t, IsPathSeparator);
      }
    }
    JoinSingleJoiners(ps, '_');
    assert t != [];
  }

  lemma SanitizeSlashSpace()
    ensures SanitizedFileName("/ b", "x") == " b"
  {
    TrimSlashSpace();
    SplitSlashSpace();
    SanitizedOfPieces("/ b", "x", [" b"]);
  }

  lemma TrimSlashSpace()
    ensures Trim("/ b") == "/ b"
  {
    var s := "/ b";
    assert s[0] == '/' && s[|s| - 1] == 'b';
    TrimLeadingKeeps(s, IsWhitespace);
    TrimTrailingKeeps(s, IsWhitespace);
  }

  lemma SplitSlashSpace()
    ensures Split("/ b", IsPathSeparator) == [" b"]
  {
    var cs := Components("/ b", IsPathSeparator);
    assert cs == [[]] + [" b"] by {
      assert "/ b" == [] + ['/'] + " b";
      ComponentsOfPiece(" b", IsPathSeparator);
      ComponentsAfterPiece([], '/', " b", IsPathSeparator);
    }
    assert cs[1..] == [" b"];
    assert Filter([" b"], IsNonEmpty) == [" b"];
  }

  /** The sanitised name of a value whose trimmed text cuts into the given pieces. */
  lemma SanitizedOfPieces(value: string, fallback: string, pieces: seq<string>)
    requires Trim(value) != [] && Split(Trim(value), IsPathSeparator) == pieces && Join(pieces, '_') != []
    ensures SanitizedFileName(value, fallback) == Join(pieces, '_')
  {
  }

  lemma SanitizeSpace()
    ensures SanitizedFileName(" b", "x") == "b"
  {
    TrimSpaceB();
    SplitB();
    SanitizedOfPieces(" b", "x", ["b"]);
  }

  lemma TrimSpaceB()
    ensures Trim(" b") == "b"
  {
    var s := " b";
    assert IsWhitespace(s[0]) && s[1..] == "b";
    TrimLeadingStep(s, IsWhitespace);
    TrimLeadingKeeps("b", IsWhitespace);
    TrimTrailingKeeps("b", IsWhitespace);
  }

  lemma SplitB()
    ensures Split("b", IsPathSeparator) == ["b"]
  {
    ComponentsOfPiece("b", IsPathSeparator);
    assert Filter(["b"], IsNonEmpty) == ["b"];
  }

  /**
   * Sanitising is not idempotent: trimming happens before cutting, so a piece
   * can keep whitespace that a second pass removes.
   */
  lemma SanitizingTwiceDiffers()
    ensures SanitizedFileName("/ b", "x") == " b"
    ensures SanitizedFileName(SanitizedFileName("/ b", "x"), "x") == "b"
  {
    SanitizeSlashSpace();
    SanitizeSpace();
  }

  /** `fileURL(forConfigName:)`: the sanitised name plus `.toml`. */
  function ProfileFileName(configName: string, fallback: string): (r: string)
    ensures |r| >= 5 && r[|r| - 5..] == ".toml"
  {
    SanitizedFileName(configName, fallback) + ".toml"
  }

  // ---------------------------------------------------------------------------
  // Path components, as the index sees a file name

  /** The position of the last `.` in `name`. */
  function LastDot(name: string): (r: Option<nat>)
    ensures r.Some? ==> r.value < |name| && name[r.value] == '.'
    ensures r.Some? ==> forall j :: r.value < j < |name| ==> name[j] != '.'
    ensures r.None? ==> forall j :: 0 <= j < |name| ==> name[j] != '.'
  {
    if name == [] then None
    else if name[|name| - 1] == '.' then Some(|name| - 1)
    else LastDot(name[..|name| - 1])
  }

  /** `.x` names are hidden; the listing skips them. */
  predicate IsHidden(name: string) {
    name != [] && name[0] == '.'
  }

  /** The position of the dot that starts a non-empty extension after a non-empty stem. */
  function ExtensionDot(name: string): Option<nat> {
    match LastDot(name)
    case Some(k) => if 0 < k < |name| - 1 then Some(k) else None
    case None => None
  }

  /** `pathExtension`. */
  function PathExtension(name: string): string {
    match ExtensionDot(name)
    case Some(k) => name[k + 1..]
    case None => []
  }

  /** `deletingPathExtension().lastPathComponent`. */
  function Stem(name: string): string {
    match ExtensionDot(name)
    case Some(k) => name[..k]
    case None => name
  }

  function LowerAscii(s: string): (r: string)
    ensures |r| == |s|
  {
    if s == [] then []
    else [if 'A' <= s[0] <= 'Z' then (s[0] as int + 32) as char else s[0]] + LowerAscii(s[1..])
  }

  /** The entries `loadIndex` keeps: not hidden, extension `toml` in any letter case. */
  predicate IsProfileFile(name: string) {
    !IsHidden(name) && LowerAscii(PathExtension(name)) == "toml"
  }

  /** A `<stem>.toml` name splits back into the stem and the extension `toml`. */
  lemma {:induction false} TomlNameParts(stem: string)
    requires stem != []
    ensures PathExtension(stem + ".toml") == "toml"
    ensures Stem(stem + ".toml") == stem
  {
    var name := stem + ".toml";
    var k := |stem|;
    assert name[k] == '.';
    assert name[k + 1..] == "toml";
    assert name[k + 1] == 't' && name[k + 2] == 'o' && name[k + 3] == 'm' && name[k + 4] == 'l';
    assert LastDot(name) == Some(k);
  }

  /**
   * A profile saved under a name is listed under its sanitised name, unless
   * that name starts with `.`, which makes the file hidden and unlisted.
   */
  lemma SavedProfileListing(configName: string, fallback: string)
    requires SanitizedFileName(configName, fallback) != []
    ensures var stem := SanitizedFileName(configName, fallback);
      var name := ProfileFileName(configName, fallback);
      && Stem(name) == stem
      && (IsProfileFile(name) <==> stem[0] != '.')
  {
    var stem := SanitizedFileName(configName, fallback);
    var name := ProfileFileName(configName, fallback);
    TomlNameParts(stem);
    assert name[0] == stem[0];
    assert LowerAscii("toml") == "toml";
  }

  // ---------------------------------------------------------------------------
  // The index

  /** `ProfileIndex`: a profile's name and the file that holds it. */
  datatype ProfileIndex = ProfileIndex(configName: string, fileName: string)

  /**
   * The requirements Swift's `sorted(by:)` places on its predicate: asymmetric,
   * and "not after" is transitive. `localizedStandardCompare(_:) ==
   * .orderedAscending` is taken to be such an order.
   */
  ghost predicate IsStrictWeakOrder(ascending: (string, string) -> bool) {
    && (forall a, b :: ascending(a, b) ==> !ascending(b, a))
    && (forall a, b, c :: !ascending(b, a) && !ascending(c, b) ==> !ascending(c, a))
  }

  /** No entry comes before an earlier one. */
  ghost predicate SortedByName(s: seq<ProfileIndex>, ascending: (string, string) -> bool) {
    forall i, j :: 0 <= i < j < |s| ==> !ascending(s[j].configName, s[i].configName)
  }

  /** An entry that no later entry precedes, put in front of a sorted sequence, keeps it sorted. */
  lemma {:induction false} SortedCons(h: ProfileIndex, t: seq<ProfileIndex>, ascending: (string, string) -> bool)
    requires SortedByName(t, ascending)
    requires forall k :: 0 <= k < |t| ==> !ascending(t[k].configName, h.configName)
    ensures SortedByName([h] + t, ascending)
  {
    var r := [h] + t;
    forall i, j | 0 <= i < j < |r|
      ensures !ascending(r[j].configName, r[i].configName)
    {
      if i == 0 {
        assert r[j] == t[j - 1];
      } else {
        assert r[i] == t[i - 1] && r[j] == t[j - 1];
      }
    }
  }

  /** Inserts `x` before the first entry that does not precede it. */
  function InsertByName(x: ProfileIndex, s: seq<ProfileIndex>, ascending: (string, string) -> bool): (r: seq<ProfileIndex>)
    ensures multiset(r) == multiset(s) + multiset{x}
  {
    if s == [] || !ascending(s[0].configName, x.configName) then [x] + s
    else
      assert s == [s[0]] + s[1..];
      [s[0]] + InsertByName(x, s[1..], ascending)
  }

  /** Inserting into a sorted sequence keeps it sorted. */
  lemma {:induction false} InsertKeepsSorted(x: ProfileIndex, s: seq<ProfileIndex>, ascending: (string, string) -> bool)
    requires IsStrictWeakOrder(ascending) && SortedByName(s, ascending)
    ensures SortedByName(InsertByName(x, s, ascending), ascending)
  {
    if s == [] || !ascending(s[0].configName, x.configName) {
      assert forall k :: 0 <= k < |s| ==> !ascending(s[k].configName, x.configName) by {
        forall k | 0 <= k < |s|
          ensures !ascending(s[k].configName, x.configName)
        {
          if k > 0 {
            assert !ascending(s[k].configName, s[0].configName);
          }
        }
      }
      SortedCons(x, s, ascending);
    } else {
      var rest := InsertByName(x, s[1..], ascending);
      InsertKeepsSorted(x, s[1..], ascending);
      assert forall k :: 0 <= k < |rest| ==> !ascending(rest[k].configName, s[0].configName) by {
        forall k | 0 <= k < |rest|
          ensures !ascending(rest[k].configName, s[0].configName)
        {
          NoLaterEntryPrecedes(x, s, ascending, rest, k);
        }
      }
      SortedCons(s[0], rest, ascending);
    }
  }

  /** After the head stays in front, whatever follows it (an entry of the tail, or `x`) does not precede it. */
  lemma NoLaterEntryPrecedes(x: ProfileIndex, s: seq<ProfileIndex>, ascending: (string, string) -> bool,
                             rest: seq<ProfileIndex>, k: int)
    requires IsStrictWeakOrder(ascending) && SortedByName(s, ascending)
    requires s != [] && ascending(s[0].configName, x.configName)
    requires multiset(rest) == multiset(s[1..]) + multiset{x}
    requires 0 <= k < |rest|
    ensures !ascending(rest[k].configName, s[0].configName)
  {
    assert rest[k] in multiset(rest);
    if rest[k] != x {
      assert rest[k] in multiset(s[1..]);
      var m :| 0 <= m < |s[1..]| && s[1..][m] == rest[k];
      assert s[m + 1] == rest[k];
    }
  }

  /** `sorted(by:)` on the configuration names: a sorted permutation. */
  function SortByName(s: seq<ProfileIndex>, ascending: (string, string) -> bool): (r: seq<ProfileIndex>)
    requires IsStrictWeakOrder(ascending)
    ensures SortedByName(r, ascending)
    ensures multiset(r) == multiset(s)
  {
    if s == [] then []
    else
      assert s == [s[0]] + s[1..];
      var sorted := SortByName(s[1..], ascending);
      InsertKeepsSorted(s[0], sorted, ascending);
      InsertByName(s[0], sorted, ascending)
  }

  /** The index entries of a directory listing, in listing order. */
  function ProfileEntries(listing: seq<string>): (r: seq<ProfileIndex>)
    ensures forall e :: e in r <==> e.fileName in listing && IsProfileFile(e.fileName) && e.configName == Stem(e.fileName)
  {
    if listing == [] then []
    else
      var name := listing[|listing| - 1];
      var init := listing[..|listing| - 1];
      assert listing == init + [name];
      ProfileEntries(init) + (if IsProfileFile(name) then [ProfileIndex(Stem(name), name)] else [])
  }

  /**
   * A profile saved under `configName` shows up in the index of any listing
   * that holds its file, under its sanitised name, unless that name is hidden.
   */
  lemma SavedProfileIsIndexed(listing: seq<string>, configName: string, fallback: string)
    requires ProfileFileName(configName, fallback) in listing
    requires SanitizedFileName(configName, fallback) != []
    ensures var entry := ProfileIndex(SanitizedFileName(configName, fallback), ProfileFileName(configName, fallback));
      entry in ProfileEntries(listing) <==> SanitizedFileName(configName, fallback)[0] != '.'
  {
    SavedProfileListing(configName, fallback);
  }

  // ---------------------------------------------------------------------------
  // The directory

  datatype SaveOperation = ForCreating | ForOverwriting

  /** The directory after `moveItem(at: source, to: target)` over a removed target. */
  function MovedEntry(files: map<string, string>, source: string, target: string): (r: map<string, string>)
    requires source in files && source != target
    ensures source !in r && target in r && r[target] == files[source]
    ensures forall n :: n != source && n != target ==> (n in r <==> n in files)
    ensures forall n :: n in r && n != target ==> r[n] == files[n]
  {
    (files - {source})[target := files[source]]
  }

  /** Moving onto a target removed beforehand gives the same directory as moving over it. */
  lemma MoveOverRemovedTarget(files: map<string, string>, source: string, target: string)
    requires source in files && source != target
    ensures MovedEntry(files - {target}, source, target) == MovedEntry(files, source, target)
  {
  }

  /** The profiles directory: whether it exists, and its files with their contents. */
  class ProfileDirectory {
    var present: bool
    var files: map<string, string>

    ghost predicate Valid()
      reads this
    {
      !present ==> files == map[]
    }

    constructor (present: bool, files: map<string, string>)
      requires !present ==> files == map[]
      ensures Valid() && this.present == present && this.files == files
    {
      this.present := present;
      this.files := files;
    }

    /**
     * `loadIndex()`. `listing` is what `contentsOfDirectory` returns, in its own
     * order, or `None` when it (or resolving the directory) throws; `ascending`
     * is the collation order.
     */
    method LoadIndex(listing: Option<seq<string>>, ascending: (string, string) -> bool)
      returns (r: Option<seq<ProfileIndex>>)
      requires Valid() && IsStrictWeakOrder(ascending)
      requires listing.Some? ==> forall n :: n in listing.value <==> n in files
      ensures !present ==> r == Some([])
      ensures present && listing.None? ==> r.None?
      ensures listing.Some? ==> (
        && r.Some?
        && SortedByName(r.value, ascending)
        && multiset(r.value) == multiset(ProfileEntries(listing.value)))
      ensures r.Some? ==> forall e :: e in r.value ==> (
        e.fileName in files && IsProfileFile(e.fileName) && e.configName == Stem(e.fileName))
    {
      if !present {
        if listing.Some? {
          assert forall k :: 0 <= k < |listing.value| ==> listing.value[k] in files;
        }
        return Some([]);
      }
      if listing.None? {
        return None;
      }
      var names := listing.value;
      var profiles: seq<ProfileIndex> := [];
      var i := 0;
      while i < |names|
        invariant 0 <= i <= |names|
        invariant profiles == ProfileEntries(names[..i])
      {
        var name := names[i];
        assert names[..i + 1] == names[..i] + [name];
        if IsProfileFile(name) {
          profiles := profiles + [ProfileIndex(Stem(name), name)];
        }
        i := i + 1;
      }
      assert names[..i] == names;
      var sorted := SortByName(profiles, ascending);
      assert forall e :: e in sorted ==> e in multiset(profiles);
      return Some(sorted);
    }

    /** `loadIndexOrEmpty()`: the index, or nothing when loading it throws. */
    method LoadIndexOrEmpty(listing: Option<seq<string>>, ascending: (string, string) -> bool)
      returns (r: seq<ProfileIndex>)
      requires Valid() && IsStrictWeakOrder(ascending)
      requires listing.Some? ==> forall n :: n in listing.value <==> n in files
      ensures !present || listing.None? ==> r == []
      ensures listing.Some? ==> (
        SortedByName(r, ascending) && multiset(r) == multiset(ProfileEntries(listing.value)))
    {
      var index := LoadIndex(listing, ascending);
      r := index.GetOr([]);
    }

    /**
     * `fileURL(forConfigName:)`: makes sure the directory exists and names the
     * file; `freshId` stands for the UUID string used as the fallback, and
     * `createOk` for the outcome of `createDirectory` when the directory is
     * missing. `None` is the error that call throws.
     */
    method FileURL(configName: string, freshId: string, createOk: bool) returns (r: Option<string>)
      requires Valid()
      modifies this
      ensures Valid() && files == old(files)
      ensures present <==> old(present) || createOk
      ensures r.Some? <==> present
      ensures r.Some? ==> r.value == ProfileFileName(configName, freshId)
    {
      if !present && !createOk {
        return None;
      }
      present := true;
      return Some(ProfileFileName(configName, freshId));
    }

    /**
     * `renameProfileFile(from:to:)`: the target is the sanitised new name (the
     * source's stem as fallback) plus `.toml`; an existing target is removed
     * first, then the source moved onto it. `createOk`, `removeOk` and `moveOk`
     * are the outcomes of `createDirectory`, `removeItem` and of `moveItem` for
     * a source that exists; `None` is the error the first failing call throws.
     * A move whose source is missing fails, by which time the target is gone.
     */
    method RenameProfileFile(source: string, configName: string, createOk: bool, removeOk: bool, moveOk: bool)
      returns (r: Option<string>)
      requires Valid()
      modifies this
      ensures Valid()
      ensures present <==> old(present) || createOk
      ensures var target := ProfileFileName(configName, Stem(source));
        if !present then r.None? && files == old(files)
        else if source == target then r == Some(source) && files == old(files)
        else if target in old(files) && !removeOk then r.None? && files == old(files)
        else if source in old(files) && moveOk then r == Some(target) && files == MovedEntry(old(files), source, target)
        else r.None? && files == old(files) - {target}
    {
      if !present && !createOk {
        return None;
      }
      present := true;
      var target := ProfileFileName(configName, Stem(source));
      if source == target {
        return Some(source);
      }
      if target in files {
        if !removeOk {
          return None;
        }
        files := files - {target};
      } else {
        assert files - {target} == files;
      }
      if source !in files || !moveOk {
        return None;
      }
      MoveOverRemovedTarget(old(files), source, target);
      files := MovedEntry(files, source, target);
      return Some(target);
    }

    /**
     * `deleteProfile(at:)`: removes the file when it exists; `removeOk` is the
     * outcome of `removeItem`, and `false` is the error it throws.
     */
    method DeleteProfile(name: string, removeOk: bool) returns (ok: bool)
      requires Valid()
      modifies this
      ensures Valid() && present == old(present)
      ensures ok <==> name !in old(files) || removeOk
      ensures files == if ok then old(files) - {name} else old(files)
    {
      if name in files {
        if !removeOk {
          return false;
        }
        files := files - {name};
      }
      return true;
    }

    /**
     * `save(_:to:)`. `encoded` is the TOML text (`None` when encoding throws);
     * `openOk` and `writeOk` are the outcomes of opening the existing document
     * and of the document save. `op` is the save operation the write used, if it
     * got that far.
     */
    method Save(name: string, encoded: Option<string>, openOk: bool, writeOk: bool)
      returns (op: Option<SaveOperation>, ok: bool)
      requires Valid()
      modifies this
      ensures Valid()
      ensures op.Some? <==> encoded.Some? && (name in old(files) ==> openOk)
      ensures op.Some? ==> op.value == if name in old(files) then ForOverwriting else ForCreating
      ensures ok <==> op.Some? && writeOk
      ensures ok ==> files == old(files)[name := encoded.value] && present
      ensures !ok ==> files == old(files) && present == old(present)
    {
      ok := false;
      if encoded.None? {
        return None, false;
      }
      var fileExists := name in files;
      if fileExists && !openOk {
        return None, false;
      }
      op := Some(if fileExists then ForOverwriting else ForCreating);
      if !writeOk {
        return op, false;
      }
      files := files[name := encoded.value];
      present := true;
      ok := true;
    }
  }
}
