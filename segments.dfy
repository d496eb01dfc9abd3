/** A Whisper segment as the formatters read it: the `"start"` seconds and the `"text"`. */
module Segments {
  datatype Segment = Segment(start: real, text: string)
}
