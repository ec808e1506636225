/** The one record every provider result is normalised into. */
module Articles {

  /** `NewsArticle`: four text fields, possibly empty. */
  datatype NewsArticle = NewsArticle(title: string, url: string, source: string, date: string)
}
