/**
 * Properties of the selection logic of librespot/audio/decoders.py: the
 * classification table, the tier filter, the first-match scan and the
 * three outcomes of the picker.
 */
module DecodersProperties {

  import opened Wrappers
  import opened Metadata
  import opened Decoders

  /** The tier numbers are 0, 1 and 2, one per tier. */
  lemma QualityValues()
    ensures Normal.Value() == 0 && High.Value() == 1 && VeryHigh.Value() == 2
    ensures forall p: AudioQuality, q: AudioQuality :: p.Value() == q.Value() ==> p == q
  {
  }

  /** The classification table, entry by entry; every other format is refused. */
  lemma ClassificationTable()
    ensures AudioQuality.GetQuality(MP3_96) == Success(Normal)
    ensures AudioQuality.GetQuality(OGG_VORBIS_96) == Success(Normal)
    ensures AudioQuality.GetQuality(AAC_24_NORM) == Success(Normal)
    ensures AudioQuality.GetQuality(MP4_128) == Success(Normal)
    ensures AudioQuality.GetQuality(MP3_160) == Success(High)
    ensures AudioQuality.GetQuality(MP3_160_ENC) == Success(High)
    ensures AudioQuality.GetQuality(OGG_VORBIS_160) == Success(High)
    ensures AudioQuality.GetQuality(AAC_24) == Success(High)
    ensures AudioQuality.GetQuality(MP3_320) == Success(VeryHigh)
    ensures AudioQuality.GetQuality(MP3_256) == Success(VeryHigh)
    ensures AudioQuality.GetQuality(OGG_VORBIS_320) == Success(VeryHigh)
    ensures AudioQuality.GetQuality(AAC_48) == Success(VeryHigh)
    ensures forall name :: AudioQuality.GetQuality(Unlisted(name)) == Failure(UnknownFormat(Unlisted(name)))
  {
  }

  /**
   * The three lists of the table are a partition of the known formats: each
   * format is listed for at most one tier, and a format classifies to a tier
   * exactly when that tier's list holds it, whatever order the tests run in.
   */
  lemma TableIsPartition(f: Format, q: AudioQuality)
    ensures AudioQuality.GetQuality(f) == Success(q) <==> f in q.TierFormats()
    ensures forall p: AudioQuality :: p != q ==> !(f in p.TierFormats() && f in q.TierFormats())
  {
  }

  /**
   * The tier filter fails exactly when some file has a set format the table
   * does not know, and then it reports the first such file's format.
   */
  lemma {:induction false} MatchesFailure(q: AudioQuality, files: seq<AudioFile>)
    ensures q.Matches(files).Failure? <==> exists i :: 0 <= i < |files| && HasUnknownFormat(files[i])
    ensures q.Matches(files).Failure? ==>
      exists i :: 0 <= i < |files| && HasUnknownFormat(files[i])
        && q.Matches(files).error == UnknownFormat(files[i].format.value)
        && forall j :: 0 <= j < i ==> !HasUnknownFormat(files[j])
    decreases |files|
  {
    if files != [] {
      MatchesFailure(q, files[1..]);
      if q.Matches(files[1..]).Failure? {
        var i :| 0 <= i < |files| - 1 && HasUnknownFormat(files[1..][i])
          && q.Matches(files[1..]).error == UnknownFormat(files[1..][i].format.value)
          && forall j :: 0 <= j < i ==> !HasUnknownFormat(files[1..][j]);
        assert files[i + 1] == files[1..][i];
        if !HasUnknownFormat(files[0]) {
          assert forall j :: 0 <= j < i + 1 ==> !HasUnknownFormat(files[j]) by {
            forall j | 0 < j < i + 1 ensures !HasUnknownFormat(files[j]) {
              assert files[j] == files[1..][j - 1];
            }
          }
        }
      } else if !HasUnknownFormat(files[0]) {
        forall i | 0 <= i < |files| ensures !HasUnknownFormat(files[i]) {
          if i > 0 { assert files[i] == files[1..][i - 1]; }
        }
      }
    }
  }

  /** `a` is `b` with some elements left out, the rest in their original order. */
  ghost predicate IsSubsequence(a: seq<AudioFile>, b: seq<AudioFile>)
    decreases |b|
  {
    if b == [] then a == []
    else (a != [] && a[0] == b[0] && IsSubsequence(a[1..], b[1..])) || IsSubsequence(a, b[1..])
  }

  /**
   * When the tier filter succeeds, its result is an order-preserving
   * subsequence of the catalog holding every file of the tier as often as the
   * catalog does, and no other file.
   */
  lemma {:induction false} MatchesIsTierFilter(q: AudioQuality, files: seq<AudioFile>)
    requires q.Matches(files).Success?
    ensures IsSubsequence(q.Matches(files).value, files)
    ensures forall file ::
              multiset(q.Matches(files).value)[file] == if InTier(file, q) then multiset(files)[file] else 0
    decreases |files|
  {
    if files != [] {
      var m := q.Matches(files).value;
      MatchesIsTierFilter(q, files[1..]);
      var rest := q.Matches(files[1..]).value;
      assert files == [files[0]] + files[1..];
      assert multiset(files) == multiset([files[0]]) + multiset(files[1..]);
      if InTier(files[0], q) {
        assert m == [files[0]] + rest;
        assert m[1..] == rest;
        assert multiset(m) == multiset([files[0]]) + multiset(rest);
      } else {
        assert m == rest;
      }
    }
  }

  /** A file is kept by the tier filter exactly when it is in the catalog and of the tier. */
  lemma MatchesMembership(q: AudioQuality, files: seq<AudioFile>, file: AudioFile)
    requires q.Matches(files).Success?
    ensures file in q.Matches(files).value <==> file in files && InTier(file, q)
  {
    MatchesIsTierFilter(q, files);
    assert file in multiset(q.Matches(files).value) <==> file in q.Matches(files).value;
    assert file in multiset(files) <==> file in files;
  }

  /** The scan returns the earliest file of the family in catalog order. */
  lemma {:induction false} FirstOfFamilyIsFirst(files: seq<AudioFile>, fam: Family, superFormat: Format -> Family)
    requires FirstOfFamily(files, fam, superFormat).Some?
    ensures exists i ::
              && 0 <= i < |files| && files[i] == FirstOfFamily(files, fam, superFormat).value
              && HasFamily(files[i], fam, superFormat)
              && forall j :: 0 <= j < i ==> !HasFamily(files[j], fam, superFormat)
    decreases |files|
  {
    if !HasFamily(files[0], fam, superFormat) {
      FirstOfFamilyIsFirst(files[1..], fam, superFormat);
      var i :| 0 <= i < |files[1..]| && files[1..][i] == FirstOfFamily(files[1..], fam, superFormat).value
        && HasFamily(files[1..][i], fam, superFormat)
        && forall j :: 0 <= j < i ==> !HasFamily(files[1..][j], fam, superFormat);
      forall j | 0 <= j < i + 1 ensures !HasFamily(files[j], fam, superFormat) {
        if j > 0 { assert files[j] == files[1..][j - 1]; }
      }
      assert files[i + 1] == files[1..][i];
    }
  }

  /** No file of the family: the scan finds nothing, in particular on an empty catalog. */
  lemma FirstOfFamilyAbsent(files: seq<AudioFile>, fam: Family, superFormat: Format -> Family)
    ensures FirstOfFamily(files, fam, superFormat) == None
      <==> forall i :: 0 <= i < |files| ==> !HasFamily(files[i], fam, superFormat)
  {
  }

  /** A file of the tier that also has the family. */
  predicate InTierOfFamily(file: AudioFile, q: AudioQuality, fam: Family, superFormat: Format -> Family)
  {
    InTier(file, q) && HasFamily(file, fam, superFormat)
  }

  /**
   * Scanning the tier-filtered catalog for a family finds the earliest file of
   * the whole catalog that is of the tier and of the family.
   */
  lemma {:induction false} FirstOfMatches(q: AudioQuality, files: seq<AudioFile>, fam: Family, superFormat: Format -> Family)
    requires q.Matches(files).Success?
    ensures FirstOfFamily(q.Matches(files).value, fam, superFormat).None?
      <==> forall i :: 0 <= i < |files| ==> !InTierOfFamily(files[i], q, fam, superFormat)
    ensures FirstOfFamily(q.Matches(files).value, fam, superFormat).Some? ==>
      exists i :: 0 <= i < |files| && files[i] == FirstOfFamily(q.Matches(files).value, fam, superFormat).value
        && InTierOfFamily(files[i], q, fam, superFormat)
        && forall j :: 0 <= j < i ==> !InTierOfFamily(files[j], q, fam, superFormat)
    decreases |files|
  {
    if files != [] {
      FirstOfMatches(q, files[1..], fam, superFormat);
      var m := q.Matches(files).value;
      var rest := q.Matches(files[1..]).value;
      var tail := files[1..];
      if InTierOfFamily(files[0], q, fam, superFormat) {
        assert m == [files[0]] + rest;
      } else {
        assert FirstOfFamily(m, fam, superFormat) == FirstOfFamily(rest, fam, superFormat) by {
          if InTier(files[0], q) {
            assert m == [files[0]] + rest;
            assert m[1..] == rest;
          } else {
            assert m == rest;
          }
        }
        if FirstOfFamily(rest, fam, superFormat).Some? {
          var i :| 0 <= i < |tail| && tail[i] == FirstOfFamily(rest, fam, superFormat).value
            && InTierOfFamily(tail[i], q, fam, superFormat)
            && forall j :: 0 <= j < i ==> !InTierOfFamily(tail[j], q, fam, superFormat);
          forall j | 0 <= j < i + 1 ensures !InTierOfFamily(files[j], q, fam, superFormat) {
            if j > 0 { assert files[j] == tail[j - 1]; }
          }
          assert files[i + 1] == tail[i];
        } else {
          forall i | 0 <= i < |files| ensures !InTierOfFamily(files[i], q, fam, superFormat) {
            if i > 0 { assert files[i] == tail[i - 1]; }
          }
        }
      }
    }
  }

  /** No file of the catalog has a set format the table does not know. */
  predicate AllFormatsKnown(files: seq<AudioFile>)
  {
    forall i :: 0 <= i < |files| ==> !HasUnknownFormat(files[i])
  }

  /**
   * A single file with an unknown format makes the picker raise, even when a
   * Vorbis file of the preferred tier is in the catalog; the error names the
   * first such file's format.
   */
  lemma PickFailsOnUnknownFormat(preferred: AudioQuality, files: seq<AudioFile>, superFormat: Format -> Family)
    ensures PickFile(preferred, files, superFormat).Failure? <==> !AllFormatsKnown(files)
    ensures PickFile(preferred, files, superFormat).Failure? ==>
      exists i :: 0 <= i < |files| && HasUnknownFormat(files[i])
        && PickFile(preferred, files, superFormat).error == UnknownFormat(files[i].format.value)
        && forall j :: 0 <= j < i ==> !HasUnknownFormat(files[j])
  {
    MatchesFailure(preferred, files);
  }

  /**
   * When the catalog has a Vorbis file of the preferred tier, the picker
   * returns the earliest one and logs nothing.
   */
  lemma PickPrefersVorbisOfTier(preferred: AudioQuality, files: seq<AudioFile>, superFormat: Format -> Family)
    requires AllFormatsKnown(files)
    requires exists i :: 0 <= i < |files| && InTierOfFamily(files[i], preferred, Vorbis, superFormat)
    ensures exists i ::
              && 0 <= i < |files|
              && PickFile(preferred, files, superFormat) == Success(Selection(Some(files[i]), NoDiagnostic))
              && InTierOfFamily(files[i], preferred, Vorbis, superFormat)
              && forall j :: 0 <= j < i ==> !InTierOfFamily(files[j], preferred, Vorbis, superFormat)
  {
    MatchesFailure(preferred, files);
    FirstOfMatches(preferred, files, Vorbis, superFormat);
  }

  /**
   * When no Vorbis file of the preferred tier exists but some MP4 file does,
   * of any tier, the picker returns the earliest MP4 file of the whole
   * catalog with one warning naming that file's format and the preferred tier.
   */
  lemma PickFallsBackToMp4(preferred: AudioQuality, files: seq<AudioFile>, superFormat: Format -> Family)
    requires AllFormatsKnown(files)
    requires forall i :: 0 <= i < |files| ==> !InTierOfFamily(files[i], preferred, Vorbis, superFormat)
    requires exists i :: 0 <= i < |files| && HasFamily(files[i], Mp4, superFormat)
    ensures exists i ::
              && 0 <= i < |files| && HasFamily(files[i], Mp4, superFormat)
              && PickFile(preferred, files, superFormat)
                 == Success(Selection(Some(files[i]), Warning(files[i].format.value, preferred)))
              && forall j :: 0 <= j < i ==> !HasFamily(files[j], Mp4, superFormat)
  {
    MatchesFailure(preferred, files);
    FirstOfMatches(preferred, files, Vorbis, superFormat);
    FirstOfFamilyAbsent(files, Mp4, superFormat);
    FirstOfFamilyIsFirst(files, Mp4, superFormat);
  }

  /**
   * When neither search finds a file, the picker returns nothing with one
   * fatal line, and raises nothing.
   */
  lemma PickReportsFatal(preferred: AudioQuality, files: seq<AudioFile>, superFormat: Format -> Family)
    requires AllFormatsKnown(files)
    requires forall i :: 0 <= i < |files| ==> !InTierOfFamily(files[i], preferred, Vorbis, superFormat)
    requires forall i :: 0 <= i < |files| ==> !HasFamily(files[i], Mp4, superFormat)
    ensures PickFile(preferred, files, superFormat) == Success(Selection(None, Fatal))
  {
    MatchesFailure(preferred, files);
    FirstOfMatches(preferred, files, Vorbis, superFormat);
    FirstOfFamilyAbsent(files, Mp4, superFormat);
  }

  /**
   * Whatever the catalog, a selection is a file of the catalog or none, and
   * the diagnostic tells which path produced it: none for a Vorbis file of the
   * preferred tier, a warning for an MP4 file, a fatal line for no file.
   */
  lemma PickOutcome(preferred: AudioQuality, files: seq<AudioFile>, superFormat: Format -> Family)
    requires PickFile(preferred, files, superFormat).Success?
    ensures var s := PickFile(preferred, files, superFormat).value;
      && (s.file.Some? ==> s.file.value in files)
      && (s.file.None? <==> s.diagnostic == Fatal)
      && (s.diagnostic == NoDiagnostic ==> s.file.Some? && InTierOfFamily(s.file.value, preferred, Vorbis, superFormat))
      && (s.diagnostic.Warning? ==>
            s.file.Some? && HasFamily(s.file.value, Mp4, superFormat)
            && s.diagnostic == Warning(s.file.value.format.value, preferred))
  {
    var m := preferred.Matches(files).value;
    var r := FirstOfFamily(m, Vorbis, superFormat);
    if r.Some? {
      MatchesMembership(preferred, files, r.value);
    }
  }

  /** A HIGH Vorbis file listed before a HIGH MP4 file, HIGH preferred: the Vorbis file is returned with no diagnostic. */
  lemma ScenarioVorbisOfTier(superFormat: Format -> Family, vorbis: seq<bv8>, mp4: seq<bv8>)
    requires superFormat(OGG_VORBIS_160) == Vorbis && superFormat(AAC_24) == Mp4
    ensures var files := [AudioFile(vorbis, Some(OGG_VORBIS_160)), AudioFile(mp4, Some(AAC_24))];
      PickFile(High, files, superFormat) == Success(Selection(Some(files[0]), NoDiagnostic))
  {
    var files := [AudioFile(vorbis, Some(OGG_VORBIS_160)), AudioFile(mp4, Some(AAC_24))];
    assert InTierOfFamily(files[0], High, Vorbis, superFormat);
    PickPrefersVorbisOfTier(High, files, superFormat);
  }

  /** A lone HIGH MP4 file, HIGH preferred: it is returned with a warning naming its format and HIGH. */
  lemma ScenarioMp4Fallback(superFormat: Format -> Family, mp4: seq<bv8>)
    requires superFormat(AAC_24) == Mp4
    ensures var files := [AudioFile(mp4, Some(AAC_24))];
      PickFile(High, files, superFormat) == Success(Selection(Some(files[0]), Warning(AAC_24, High)))
  {
    var files := [AudioFile(mp4, Some(AAC_24))];
    assert HasFamily(files[0], Mp4, superFormat);
    PickFallsBackToMp4(High, files, superFormat);
  }

  /** A lone NORMAL file of a family other than MP4, HIGH preferred: nothing is returned, with a fatal diagnostic. */
  lemma ScenarioNothingUsable(superFormat: Format -> Family, aac: seq<bv8>)
    requires superFormat(AAC_24_NORM) != Mp4
    ensures PickFile(High, [AudioFile(aac, Some(AAC_24_NORM))], superFormat) == Success(Selection(None, Fatal))
  {
    var files := [AudioFile(aac, Some(AAC_24_NORM))];
    assert !InTier(files[0], High);
    PickReportsFatal(High, files, superFormat);
  }

  /** An empty catalog gives nothing and a fatal diagnostic, for every tier. */
  lemma ScenarioEmptyCatalog(preferred: AudioQuality, superFormat: Format -> Family)
    ensures PickFile(preferred, [], superFormat) == Success(Selection(None, Fatal))
  {
  }
}
