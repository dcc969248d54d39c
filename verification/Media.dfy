/**
 The wire vocabulary shared by capture, spool and codecs
 (client/sentinel-core/src/protocol.rs).
 */
module Media {

  type byte = x: nat | x < 256

  type Bytes = seq<byte>

  datatype Channel = Far | Near

  datatype MediaFlags = MediaFlags(foreignAudio: bool, silenceInserted: bool)

  /** Opus packets in a one-second segment. */
  const FRAMES_PER_SEGMENT := 50

  /** Segments batched into one message. */
  const SEGMENTS_PER_MESSAGE := 10

  /** Largest message the gateway accepts. */
  const MAX_MESSAGE_BYTES := 1024 * 1024

  /** Largest Opus packet the encoder asks for. */
  const MAX_PACKET := 400

  datatype EndReason = Hangup | DeviceLost | SignedOut | Shutdown | Revoked | Failure
}
