/** The article record of the content API and the loading phase shared by both slices. */
module NewsTypes {
  import opened Wrappers

  datatype ArticleFields = ArticleFields(thumbnail: Option<string>, trailText: string, body: Option<string>)

  datatype Article = Article(
    id: string,
    webTitle: string,
    webUrl: string,
    webPublicationDate: string,
    sectionName: string,
    fields: ArticleFields)

  /** `'idle' | 'loading' | 'succeeded' | 'failed'` */
  datatype Status = Idle | Loading | Succeeded | Failed
}
