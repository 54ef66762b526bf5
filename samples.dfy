/** Sample paths of the audio manager (abstract-wheels/audio.js): the sample
    directories and `normalizeSamplePath`, which turns a manifest or directory
    listing entry into the path the buffers are keyed by. */
module Samples {
  import opened Util

  /** The four sample pools and the directory each is read from. */
  const PoolGroups: seq<string> := ["sfx", "kick", "snare", "hihat"]

  const SampleDirs: map<string, string> :=
    map["sfx" := "../SFX", "kick" := "../Kicks", "snare" := "../Snares", "hihat" := "../Hats"]

  predicate StartsWith(s: string, prefix: string)
  {
    |prefix| <= |s| && s[..|prefix|] == prefix
  }

  /** ASCII lower case, the folding the case-insensitive scheme test uses. */
  function Lower(c: char): char
  {
    if 'A' <= c <= 'Z' then (c as int + 32) as char else c
  }

  /** The test `/^https?:/i`. */
  predicate IsHttpUrl(s: string)
  {
    |s| >= 5 && Lower(s[0]) == 'h' && Lower(s[1]) == 't' && Lower(s[2]) == 't' && Lower(s[3]) == 'p' &&
    (s[4] == ':' || (|s| >= 6 && Lower(s[4]) == 's' && s[5] == ':'))
  }

  /** Entries that are used as they are: URLs, absolute paths and paths
      relative to the page. */
  predicate IsKeptAsIs(entry: string)
  {
    IsHttpUrl(entry) || StartsWith(entry, "/") || StartsWith(entry, "../") || StartsWith(entry, "./")
  }

  /** The folder without one trailing slash (`replace(/\/$/, '')`). */
  function TrimSlash(folder: string): (f: string)
    ensures |folder| > 0 && folder[|folder| - 1] == '/' ==> f + "/" == folder
    ensures !(|folder| > 0 && folder[|folder| - 1] == '/') ==> f == folder
  {
    if |folder| > 0 && folder[|folder| - 1] == '/' then folder[..|folder| - 1] else folder
  }

  /** `normalizeSamplePath`: no path for an empty entry; a URL, absolute or
      page-relative entry unchanged; anything else joined to the folder with
      exactly the one slash the folder may already end with. */
  function NormalizeSamplePath(folder: string, entry: string): (p: Option<string>)
    ensures p.None? <==> entry == ""
    ensures entry != "" && IsKeptAsIs(entry) ==> p == Some(entry)
    ensures entry != "" && !IsKeptAsIs(entry) ==>
              p == Some(TrimSlash(folder) + "/" + entry)
  {
    if entry == "" then None
    else if IsHttpUrl(entry) then Some(entry)
    else if StartsWith(entry, "/") then Some(entry)
    else if StartsWith(entry, "../") || StartsWith(entry, "./") then Some(entry)
    else Some(TrimSlash(folder) + "/" + entry)
  }

  /** A joined path keeps the entry as its last segment: it ends with "/" and
      the entry. */
  lemma {:induction false} JoinedEndsWithEntry(folder: string, entry: string)
    requires entry != "" && !IsKeptAsIs(entry)
    ensures var p := NormalizeSamplePath(folder, entry).value;
            |p| > |entry| && p[|p| - |entry|..] == entry && p[|p| - |entry| - 1] == '/'
  {
    var p := TrimSlash(folder) + "/" + entry;
    assert p[|p| - |entry|..] == entry;
  }

  /** Normalising is idempotent for folders that are themselves page-relative
      or absolute, as every sample directory is: a normalised path is kept as it
      is, whatever folder it is normalised against again. */
  lemma {:induction false} NormalizeIdempotent(folder: string, other: string, entry: string)
    requires StartsWith(folder, "../") || StartsWith(folder, "./") || StartsWith(folder, "/")
    requires entry != ""
    ensures var p := NormalizeSamplePath(folder, entry).value;
            NormalizeSamplePath(other, p) == Some(p)
  {
    if !IsKeptAsIs(entry) {
      if StartsWith(folder, "/") {
        JoinKeepsFolderPrefix(folder, "/", entry);
      } else if StartsWith(folder, "./") {
        JoinKeepsFolderPrefix(folder, "./", entry);
      } else {
        JoinKeepsFolderPrefix(folder, "../", entry);
      }
    }
  }

  /** Joining an entry to a folder keeps whatever the folder starts with: the
      trimmed slash is put back by the join. */
  lemma JoinKeepsFolderPrefix(folder: string, prefix: string, entry: string)
    requires StartsWith(folder, prefix)
    ensures StartsWith(TrimSlash(folder) + "/" + entry, prefix)
  {
    var p := TrimSlash(folder) + "/" + entry;
    if |folder| > 0 && folder[|folder| - 1] == '/' {
      assert p == folder + entry;
    } else {
      assert p == folder + ("/" + entry);
    }
    assert p[..|prefix|] == folder[..|prefix|];
  }

  /** Every sample directory is page-relative, so paths built from it stay
      fixed under normalisation. */
  lemma SampleDirsRelative()
    ensures SampleDirs.Keys == set g | g in PoolGroups
    ensures forall g :: g in SampleDirs ==> StartsWith(SampleDirs[g], "../")
  {
  }
}
