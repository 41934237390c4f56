/** The browser facilities the authentication code touches: localStorage,
    the address bar (window.location), and the decoded claims of a JWT. */
module Browser {
  import opened Wrappers

  /** The claims the client reads from a decoded JWT: the `exp` NumericDate
      of RFC 7519 section 4.1.4, in whole seconds, when present. Decoding
      itself (jwt-decode) is a parameter: None stands for a token it
      cannot decode, i.e. for the call throwing. */
  datatype Claims = Claims(exp: Option<int>)

  /** JavaScript truthiness of a `string | null`: null and "" are falsy. */
  predicate Truthy(s: Option<string>) {
    s.Some? && s.value != ""
  }

  /** window.localStorage: a string-to-string map updated in place. */
  class LocalStorage {
    var items: map<string, string>

    constructor (items: map<string, string>)
      ensures this.items == items
    {
      this.items := items;
    }

    /** getItem: the stored value, or null. */
    method GetItem(key: string) returns (v: Option<string>)
      ensures key in items ==> v == Some(items[key])
      ensures key !in items ==> v == None
    {
      v := if key in items then Some(items[key]) else None;
    }

    method SetItem(key: string, value: string)
      modifies this
      ensures items == old(items)[key := value]
    {
      items := items[key := value];
    }

    method RemoveItem(key: string)
      modifies this
      ensures items == old(items) - {key}
    {
      items := items - {key};
    }
  }

  /** window.location: `href` is assigned to leave the page; pathname and
      search describe the current page. */
  class Location {
    var href: string
    const pathname: string
    const search: string

    constructor (href: string, pathname: string, search: string)
      ensures this.href == href && this.pathname == pathname && this.search == search
    {
      this.href := href;
      this.pathname := pathname;
      this.search := search;
    }
  }
}
