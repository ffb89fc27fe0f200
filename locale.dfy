/** The two interface languages of the client: English and Bengali. */
module Locale {
  datatype Language = En | Bn
}
