/** Names shared by the audio plane: the vad_state tags of config.h and of the section
    C.6 packet, and the constants of the wire format. */
module C6Types {
  newtype Byte = x: int | 0 <= x < 0x100

  datatype VadState = GapMarker | Speech | Preroll | Hangover
  datatype PacketType = Live | MemoryChunk | Historical

  const HEADER_LEN := 12
  const FLAG_LAST_OF_REQ: Byte := 2
  const FRAMES_PER_CHUNK := 10
  const MAX_OPUS_BYTES := 256
  const RING_FRAMES := 3000
  const VAD_PREROLL_FRAMES := 15
}
