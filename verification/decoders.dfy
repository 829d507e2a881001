/**
 * The audio-file selection of librespot/audio/decoders.py: the quality tiers
 * with their classification table, the filter of a catalog by tier, and the
 * Vorbis-only picker with its MP4 fallback.
 */
module Decoders {

  import opened Wrappers
  import opened Metadata

  /** What `get_quality` raises for a format outside its table. */
  datatype QualityError = UnknownFormat(format: Format)

  /**
   * The three quality tiers, numbered 0, 1 and 2 as in the source. The
   * selection logic compares tiers themselves, never their numbers; `Value`
   * only records the numbering.
   */
  datatype AudioQuality = Normal | High | VeryHigh {

    function Value(): nat
    {
      match this
      case Normal => 0x00
      case High => 0x01
      case VeryHigh => 0x02
    }

    /** The formats the table lists for this tier, in the order written there. */
    function TierFormats(): seq<Format>
    {
      match this
      case Normal => [MP3_96, OGG_VORBIS_96, AAC_24_NORM, MP4_128]
      case High => [MP3_160, MP3_160_ENC, OGG_VORBIS_160, AAC_24]
      case VeryHigh => [MP3_320, MP3_256, OGG_VORBIS_320, AAC_48]
    }

    /**
     * `get_quality`: the three membership tests in order; a format none of
     * them lists is an error, never a default tier.
     */
    static function GetQuality(audioFormat: Format): (r: Result<AudioQuality, QualityError>)
      ensures r.Failure? <==> audioFormat.Unlisted?
      ensures r.Failure? ==> r.error == UnknownFormat(audioFormat)
    {
      if audioFormat in Normal.TierFormats() then Success(Normal)
      else if audioFormat in High.TierFormats() then Success(High)
      else if audioFormat in VeryHigh.TierFormats() then Success(VeryHigh)
      else Failure(UnknownFormat(audioFormat))
    }

    /**
     * What `get_matches` computes: the files whose format is set and classifies
     * to this tier, in catalog order, or the error of the first file (in
     * catalog order) whose set format has no tier. Files without a format are
     * skipped.
     */
    function Matches(files: seq<AudioFile>): (r: Result<seq<AudioFile>, QualityError>)
      ensures r.Success? ==> |r.value| <= |files|
      ensures r.Success? ==> forall file :: file in r.value ==> file in files && InTier(file, this)
      decreases |files|
    {
      if files == [] then Success([])
      else
        var file := files[0];
        if file.format.None? then Matches(files[1..])
        else match GetQuality(file.format.value)
          case Failure(e) => Failure(e)
          case Success(quality) =>
            match Matches(files[1..])
            case Failure(e) => Failure(e)
            case Success(rest) => Success(if quality == this then [file] + rest else rest)
    }

    /** `get_matches`: one pass over the catalog, appending each file of this tier. */
    method GetMatches(files: seq<AudioFile>) returns (r: Result<seq<AudioFile>, QualityError>)
      ensures r == Matches(files)
    {
      var fileList: seq<AudioFile> := [];
      assert files[0..] == files;
      assert Prepend([], Matches(files)) == Matches(files) by {
        if Matches(files).Success? { assert [] + Matches(files).value == Matches(files).value; }
      }
      for i := 0 to |files|
        invariant Matches(files) == Prepend(fileList, Matches(files[i..]))
      {
        var file := files[i];
        assert files[i..][1..] == files[i + 1..];
        if file.format.Some? {
          var quality := GetQuality(file.format.value);
          if quality.Failure? {
            return Failure(quality.error);
          }
          if quality.value == this {
            if Matches(files[i + 1..]).Success? {
              assert fileList + ([file] + Matches(files[i + 1..]).value)
                  == (fileList + [file]) + Matches(files[i + 1..]).value;
            }
            fileList := fileList + [file];
          }
        }
      }
      assert files[|files|..] == [];
      assert fileList + [] == fileList;
      return Success(fileList);
    }
  }

  /** `done` put in front of the files a scan still has to produce. */
  function Prepend(done: seq<AudioFile>, later: Result<seq<AudioFile>, QualityError>): Result<seq<AudioFile>, QualityError>
  {
    match later
    case Failure(e) => Failure(e)
    case Success(rest) => Success(done + rest)
  }

  /** The file's format is set and the table puts it in tier `q`. */
  predicate InTier(file: AudioFile, q: AudioQuality)
  {
    file.format.Some? && AudioQuality.GetQuality(file.format.value) == Success(q)
  }

  /** The file's format is set but the table does not know it. */
  predicate HasUnknownFormat(file: AudioFile)
  {
    file.format.Some? && AudioQuality.GetQuality(file.format.value).Failure?
  }

  /**
   * What `get_preferred_file` computes: the first file, in catalog order,
   * whose format is set and belongs to `fam`.
   */
  function FirstOfFamily(files: seq<AudioFile>, fam: Family, superFormat: Format -> Family): (r: Option<AudioFile>)
    ensures r.Some? ==> r.value in files && HasFamily(r.value, fam, superFormat)
    ensures r.None? <==> forall file :: file in files ==> !HasFamily(file, fam, superFormat)
    decreases |files|
  {
    if files == [] then None
    else if HasFamily(files[0], fam, superFormat) then Some(files[0])
    else FirstOfFamily(files[1..], fam, superFormat)
  }

  /** The log line `get_file` writes, reduced to its level and arguments. */
  datatype Diagnostic =
    | NoDiagnostic
    | Warning(used: Format, preferred: AudioQuality)
    | Fatal

  /** What `get_file` hands back: the chosen file, if any, and the line it logged. */
  datatype Selection = Selection(file: Option<AudioFile>, diagnostic: Diagnostic)

  /**
   * What `get_file` computes for a picker whose preferred tier is `preferred`:
   * a Vorbis file of that tier, else an MP4 file of any tier with a warning,
   * else nothing with a fatal line; an unknown format anywhere in the catalog
   * is raised instead.
   */
  function PickFile(preferred: AudioQuality, files: seq<AudioFile>, superFormat: Format -> Family)
    : (r: Result<Selection, QualityError>)
    ensures r.Success? && r.value.file.Some? ==> r.value.file.value in files
    ensures r.Success? ==> (r.value.file.None? <==> r.value.diagnostic == Fatal)
    ensures r.Success? && r.value.diagnostic == NoDiagnostic ==>
              InTier(r.value.file.value, preferred) && HasFamily(r.value.file.value, Vorbis, superFormat)
    ensures r.Success? && r.value.diagnostic.Warning? ==> r.value.diagnostic.preferred == preferred
  {
    match preferred.Matches(files)
    case Failure(e) => Failure(e)
    case Success(matches) =>
      match FirstOfFamily(matches, Vorbis, superFormat)
      case Some(file) => Success(Selection(Some(file), NoDiagnostic))
      case None =>
        match FirstOfFamily(files, Mp4, superFormat)
        case Some(file) => Success(Selection(Some(file), Warning(file.format.value, preferred)))
        case None => Success(Selection(None, Fatal))
  }

  /** `VorbisOnlyAudioQuality`: a picker with a preferred tier fixed at construction. */
  class VorbisOnlyAudioQuality {
    const preferred: AudioQuality

    constructor (preferred: AudioQuality)
      ensures this.preferred == preferred
    {
      this.preferred := preferred;
    }

    /**
     * `get_preferred_file`: scan in order and stop at the first file of family
     * `fam` (the source's parameter `format`).
     */
    static method GetPreferredFile(files: seq<AudioFile>, fam: Family, superFormat: Format -> Family)
      returns (r: Option<AudioFile>)
      ensures r == FirstOfFamily(files, fam, superFormat)
    {
      for i := 0 to |files|
        invariant FirstOfFamily(files, fam, superFormat) == FirstOfFamily(files[i..], fam, superFormat)
      {
        var file := files[i];
        assert files[i..][1..] == files[i + 1..];
        if file.format.Some? && superFormat(file.format.value) == fam {
          return Some(file);
        }
      }
      assert files[|files|..] == [];
      return None;
    }

    /** `get_file`: the tier filter, the Vorbis scan and the MP4 fallback. */
    method GetFile(files: seq<AudioFile>, superFormat: Format -> Family) returns (r: Result<Selection, QualityError>)
      ensures r == PickFile(preferred, files, superFormat)
    {
      var matches := preferred.GetMatches(files);
      if matches.Failure? {
        return Failure(matches.error);
      }
      var preferredFile := GetPreferredFile(matches.value, Vorbis, superFormat);
      var diagnostic := NoDiagnostic;
      if preferredFile.None? {
        preferredFile := GetPreferredFile(files, Mp4, superFormat);
        if preferredFile.Some? {
          diagnostic := Warning(preferredFile.value.format.value, preferred);
        } else {
          diagnostic := Fatal;
        }
      }
      return Success(Selection(preferredFile, diagnostic));
    }
  }
}
