/** Text checks shared by the stores and the dealing core. */
module Strings {
  predicate NonBlank(text: string) {
    exists i :: 0 <= i < |text| && text[i] != ' '
  }
}
