/**
 * The catalog types the picker reads: the `Format` enumeration and the
 * `AudioFile` message of Spotify's metadata protocol, and the codec families
 * of `SuperAudioFormat`. Only the parts the picker looks at are modelled.
 */
module Metadata {

  import opened Wrappers

  /**
   * `AudioFile.Format`. The twelve values named by the classification table,
   * and `Unlisted` for every other value of the enumeration, by its name.
   * `Unlisted` never carries one of the twelve tabled names: those values are
   * only ever represented by their own constructors.
   */
  datatype Format =
    | MP3_96 | OGG_VORBIS_96 | AAC_24_NORM | MP4_128
    | MP3_160 | MP3_160_ENC | OGG_VORBIS_160 | AAC_24
    | MP3_320 | MP3_256 | OGG_VORBIS_320 | AAC_48
    | Unlisted(name: string)

  /**
   * One catalog entry. `format` is `None` when the message does not have its
   * `format` field set; `fileId` identifies the encoded file.
   */
  datatype AudioFile = AudioFile(fileId: seq<bv8>, format: Option<Format>)

  /**
   * `SuperAudioFormat`: the codec family of a format. The mapping from formats
   * to families is not part of this model; operations that need it take it as
   * a parameter `superFormat: Format -> Family`.
   */
  datatype Family = Vorbis | Mp4 | OtherFamily(name: string)

  /** The file's format is set and belongs to family `fam`. */
  predicate HasFamily(file: AudioFile, fam: Family, superFormat: Format -> Family)
  {
    file.format.Some? && superFormat(file.format.value) == fam
  }
}
