/**
 * The two records exchanged between the upload endpoint and the copy service.
 */
module Types {
  /**
   * Per-request configuration: how many copies to generate and which of the
   * nine effects to apply. `copies` is whatever the endpoint parsed; it is
   * not guaranteed to be positive.
   */
  datatype ProcessSettings = ProcessSettings(
    copies: int,
    brightness: bool,
    contrast: bool,
    saturation: bool,
    mirror: bool,
    rotation: bool,
    zoom: bool,
    audioSpeed: bool,
    audioVolume: bool,
    audioPitch: bool)

  /** What the service reports for one copy that the transcoder finished. */
  datatype GeneratedFileInfo = GeneratedFileInfo(
    id: string,
    filename: string,
    url: string,
    filters: string)
}
