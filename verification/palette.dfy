/**
  The colours the face logic chooses between. The four configured palette
  entries (`color_main`, `color_accent`, `color_warn`, `color_error`) are kept
  abstract: their concrete RGB values are configuration, not logic. `White`
  and `Clear` are the two platform colours the logic names directly.
 */
module Palette {

  datatype Color = Main | Accent | Warn | Error | White | Clear
}
