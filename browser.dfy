/** The browser's `localStorage`, shared by every client component, and the keys
    the client stores under. */
module Browser {
  import opened Wrappers

  /** Key of the current document's id (FileUpload.jsx, Summary.jsx, Chat.jsx, Clauses.jsx). */
  const DocIdKey: string := "legalease_doc_id"
  /** Key of the current document's file name (FileUpload.jsx). */
  const DocNameKey: string := "legalease_doc_name"
  /** Key of the chosen language (LanguageContext.jsx). */
  const LanguageKey: string := "legalease_language"
  /** Key of the chosen colour theme (ThemeProvider.jsx). */
  const ThemeKey: string := "theme"

  /** A durable string-to-string store; one object is shared by all components. */
  class LocalStorage {
    var items: map<string, string>

    constructor (items: map<string, string>)
      ensures this.items == items
    {
      this.items := items;
    }

    /** `getItem(key)`: the stored value, `None` for `null`. */
    function GetItem(key: string): (r: Option<string>)
      reads this
      ensures r.Some? <==> key in items
      ensures r.Some? ==> r.value == items[key]
    {
      if key in items then Some(items[key]) else None
    }

    /** `setItem(key, value)`. */
    method SetItem(key: string, value: string)
      modifies this
      ensures items == old(items)[key := value]
    {
      items := items[key := value];
    }

    /** `removeItem(key)`; removing an absent key changes nothing. */
    method RemoveItem(key: string)
      modifies this
      ensures items == old(items) - {key}
    {
      items := items - {key};
    }
  }
}
