/** The part of an upstream Notion page that the posts endpoint reads: the
    page id and its bag of named, typed properties. */
module Notion {
  import opened JsText

  /** One rich-text segment of a title property; `plain_text` may be missing. */
  datatype Segment = Segment(plainText: Option<string>)

  /** One entry of a files property, told apart by its `type`: an uploaded
      file (`"file"`), an external link (`"external"`), or any other kind.
      The URL inside may be missing. */
  datatype FileRef = Uploaded(url: Option<string>) | External(url: Option<string>) | UnknownKind

  /** A property value, by the field the endpoint reads from it: `title`,
      `files`, `select` (whose option may be `null`), `checkbox`, or a
      property type it reads nothing from. */
  datatype Prop =
    | Title(segments: seq<Segment>)
    | Files(files: seq<FileRef>)
    | Select(selected: Option<string>)
    | Checkbox(checked: bool)
    | Other

  /** A page as returned by the database query; `properties` may be absent. */
  datatype Page = Page(id: string, properties: Option<map<string, Prop>>)

  /** `page.properties || {}`: an object, even an empty one, is truthy, so
      present properties are used as they are and only absent ones become `{}`. */
  function Props(page: Page): (m: map<string, Prop>)
    ensures page.properties.None? ==> m == map[]
    ensures page.properties.Some? ==> m == page.properties.value
  {
    page.properties.GetOr(map[])
  }
}
