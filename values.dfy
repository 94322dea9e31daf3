/** The two value types of Sources/SoundIO/Values.swift that the rest of the model uses.
    Their C enum values are constants of the C library and are not modelled. */
module Values {

  /** `Backend`: `none` lets the library pick a backend; the six others name one. */
  datatype Backend = NoBackend | Jack | PulseAudio | Alsa | CoreAudio | Wasapi | Dummy

  /** `Format`: a wrapper around a raw `SoundIoFormat` value. */
  datatype Format = Format(rawValue: int)
}
