/** Words every audio backend shares. */
module Types {
  datatype Direction = Capture | Playback
}
