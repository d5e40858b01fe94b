/** The `variant` values of the UI library's `Badge` that the badge helpers choose from. */
module Badges {

  datatype Variant = Default | Secondary | Destructive | Outline
}
