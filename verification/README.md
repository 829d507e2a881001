# Audio-file selection of librespot-python, modelled in Dafny

This project models how librespot-python chooses which encoding of a track to
fetch (`librespot/audio/decoders.py`):

- `AudioQuality` has three tiers, NORMAL, HIGH and VERY_HIGH, numbered 0, 1 and 2.
  - `get_quality` classifies an `AudioFile.Format` through a fixed table of twelve formats. Any other format raises an error.
  - `get_matches` keeps the files of one tier.
- `VorbisOnlyAudioQuality` holds a preferred tier.
  - `get_preferred_file` returns the first file of a codec family.
  - `get_file` looks for a Vorbis file of the preferred tier. If there is none, it takes the first MP4 file of the whole catalog, whatever its tier, and logs a warning. If there is no MP4 file either, it logs a fatal line and returns nothing.

Files:

- `wrappers.dfy`: `Option` and `Result`.
- `metadata.dfy`: the protocol types the picker reads.
  - `Format` has the twelve tabled values plus `Unlisted(name)` for every other enumeration value.
  - `AudioFile` has a file id and an optional format.
  - `Family` stands for `SuperAudioFormat`.
- `decoders.dfy`: the model of `decoders.py`.
  - `AudioQuality` is a datatype whose members are `GetQuality`, `GetMatches` and its specification `Matches`.
  - `FirstOfFamily` specifies `get_preferred_file`; `PickFile` specifies `get_file`.
  - The `VorbisOnlyAudioQuality` class holds `preferred` as a `const`.
  - The two loops of the source are methods. Each is proved equal to its specification function.
- `properties.dfy`: lemmas about the specification functions.

Modelling choices:

- **Codec families.** `SuperAudioFormat.get` is defined outside this model. Every operation that needs it takes it as the parameter `superFormat: Format -> Family`. No lemma assumes anything about it beyond what the lemma's `requires` states.
- **Errors.** `get_quality`'s `RuntimeError` becomes `Failure(UnknownFormat(f))`. `get_matches` does not catch it, and neither does `get_file`. The first unknown format in catalog order is what both report.
- **Logging.** A log line becomes a returned `Diagnostic`:
  - `NoDiagnostic` when nothing is logged;
  - `Warning(format, preferred)`, carrying the fallback file's format and the preferred tier;
  - `Fatal`.
- **Format presence.** A file whose `format` field is unset has `format == None`. Both scans skip such files. In `get_matches` the source tests `hasattr(file, "format")` (librespot/audio/decoders.py:45), which is always true on a protocol message. Read literally, an unset format would therefore be classified as the enumeration's default value. The model skips files without a format in both scans, as `get_preferred_file` does with `HasField` (line 61).
- **Fatal line.** The code logs a fixed text whose `{}` is never filled in; `Fatal` carries nothing.
- **Repeated calls.** `GetFile`'s result equals the function `PickFile(preferred, files, superFormat)`. Two calls with the same catalog therefore give the same file and diagnostic. `preferred` is a `const`, so only the constructor sets it.

## Model

| member | source | states |
|---|---|---|
| `DecodersProperties.QualityValues` | librespot/audio/decoders.py:11-14 | the tiers are numbered 0, 1, 2 and no two tiers share a number |
| `Decoders.AudioQuality.GetQuality` | librespot/audio/decoders.py:17-39 | classification fails exactly for formats outside the table, and the error names that format; no format gets a default tier |
| `DecodersProperties.ClassificationTable` | librespot/audio/decoders.py:18-38 | the table entry by entry: four formats each for NORMAL, HIGH and VERY_HIGH; every other format is refused |
| `DecodersProperties.TableIsPartition` | librespot/audio/decoders.py:18-39 | a format classifies to a tier if and only if that tier's list holds it, and no format is in two lists |
| `Decoders.AudioQuality.Matches` | librespot/audio/decoders.py:41-48 | the tier filter as a function: on success at most as long as the catalog, and every file it keeps is a catalog file whose set format classifies to the tier (when and how it fails is stated by `MatchesFailure`) |
| `Decoders.AudioQuality.GetMatches` | librespot/audio/decoders.py:41-48 | the loop that appends matching files returns exactly the tier filter `Matches`, including its early error |
| `DecodersProperties.MatchesFailure` | librespot/audio/decoders.py:44-47 | the filter fails if and only if some file has a set format the table does not know, and the error names the first such file's format |
| `DecodersProperties.MatchesIsTierFilter` | librespot/audio/decoders.py:41-48 | on success the result is an order-preserving subsequence of the catalog; each file of the tier occurs as often as in the catalog, and no other file occurs |
| `DecodersProperties.MatchesMembership` | librespot/audio/decoders.py:41-48 | a file is in the filtered list if and only if it is in the catalog, its format is set and it classifies to the tier |
| `Decoders.FirstOfFamily` | librespot/audio/decoders.py:59-64 | a file it returns is in the catalog, has a set format and has the requested family; it returns nothing if and only if no catalog file has that family |
| `DecodersProperties.FirstOfFamilyIsFirst` | librespot/audio/decoders.py:59-64 | the returned file is at an index before which no file has a set format of the family |
| `DecodersProperties.FirstOfFamilyAbsent` | librespot/audio/decoders.py:59-64 | nothing is returned exactly when no index holds a file of the family, which includes the empty catalog |
| `Decoders.VorbisOnlyAudioQuality.GetPreferredFile` | librespot/audio/decoders.py:59-64 | the scan with early return yields exactly `FirstOfFamily` |
| `Decoders.VorbisOnlyAudioQuality.constructor` | librespot/audio/decoders.py:55-56 | the picker's preferred tier is the one given; it is a constant afterwards |
| `Decoders.PickFile` | librespot/audio/decoders.py:66-82 | the picker as a function: a returned file is in the catalog; nothing is returned exactly when the diagnostic is fatal; with no diagnostic the file is a Vorbis file of the preferred tier; a warning carries the preferred tier |
| `Decoders.VorbisOnlyAudioQuality.GetFile` | librespot/audio/decoders.py:66-82 | the method yields exactly `PickFile` for the picker's tier, so repeated calls agree |
| `DecodersProperties.FirstOfMatches` | librespot/audio/decoders.py:67-70 | scanning the tier-filtered list for a family finds the earliest catalog file of both the tier and the family, or nothing when no such file exists |
| `DecodersProperties.PickFailsOnUnknownFormat` | librespot/audio/decoders.py:67-68 | the picker raises if and only if some file has an unknown set format, even when a suitable Vorbis file exists; the error names the first such format |
| `DecodersProperties.PickPrefersVorbisOfTier` | librespot/audio/decoders.py:67-71 | if a Vorbis file of the preferred tier exists, the earliest one is returned with no diagnostic |
| `DecodersProperties.PickFallsBackToMp4` | librespot/audio/decoders.py:71-78 | with no Vorbis file of the tier, the earliest MP4 file of the whole unfiltered catalog is returned, whatever its tier, with one warning carrying its format and the preferred tier |
| `DecodersProperties.PickReportsFatal` | librespot/audio/decoders.py:79-82 | with neither kind of file, the picker returns nothing with one fatal diagnostic and no error |
| `DecodersProperties.PickOutcome` | librespot/audio/decoders.py:66-82 | a returned file is always in the catalog; nothing is returned exactly when the diagnostic is fatal; no diagnostic means a Vorbis file of the tier; a warning means an MP4 file, and the warning names that file's format and the preferred tier |
| `DecodersProperties.ScenarioVorbisOfTier` | librespot/audio/decoders.py:66-71 | a HIGH Vorbis file listed before a HIGH MP4 file, with HIGH preferred: the Vorbis file is returned silently |
| `DecodersProperties.ScenarioMp4Fallback` | librespot/audio/decoders.py:71-78 | a lone HIGH MP4 file, with HIGH preferred: it is returned with a warning naming its format and HIGH |
| `DecodersProperties.ScenarioNothingUsable` | librespot/audio/decoders.py:79-82 | a lone NORMAL non-MP4 file, with HIGH preferred: nothing is returned, with a fatal diagnostic |
| `DecodersProperties.ScenarioEmptyCatalog` | librespot/audio/decoders.py:79-82 | an empty catalog gives nothing and a fatal diagnostic for every tier |

## Left out

- The `AudioQualityPicker` base class (librespot/audio/format/AudioQualityPicker.py and `librespot.structure`) is not modelled. It only declares `get_file`, and the model has a single picker class with no shared interface above it.
- Log text and the logger object are not modelled. Only the diagnostic's kind and arguments are kept. This leaves out the unfilled `{}` in the fatal message and the error message at decoders.py:39, which formats the builtin `format` rather than the offending value.
- `SuperAudioFormat.get` and the protocol's numeric enumeration values are not part of this model. The format-to-family mapping is a parameter.
- `librespot/__init__.py` (version strings, platform detection, build information) depends on the host environment and makes no selection decision.
- Python's identity of objects is not modelled. Files are values, so "the same file" means an equal `AudioFile`.
