/**
  The two pieces of browser state the context providers write: the page's
  `localStorage` (string keys to string values) and the root element of the
  document (its attributes and its class list).
 */
module Browser {
  import opened Js

  /** `window.localStorage`, shared by every provider on the page. */
  class LocalStorage {
    var items: map<string, string>

    constructor (initial: map<string, string>)
      ensures items == initial
    {
      items := initial;
    }

    /** `localStorage.getItem(key)`: None stands for `null`. */
    function GetItem(key: string): (r: Option<string>)
      reads this
      ensures r.Some? <==> key in items
      ensures r.Some? ==> r.value == items[key]
    {
      if key in items then Some(items[key]) else None
    }

    /** `localStorage.setItem(key, value)` */
    method SetItem(key: string, value: string)
      modifies this
      ensures items == old(items)[key := value]
    {
      items := items[key := value];
    }
  }

  /** `document.documentElement`: its attributes and its class list. */
  class DocumentRoot {
    var attributes: map<string, string>
    var classes: set<string>

    constructor ()
      ensures attributes == map[] && classes == {}
    {
      attributes, classes := map[], {};
    }

    /** `root.setAttribute(name, value)` */
    method SetAttribute(name: string, value: string)
      modifies this
      ensures attributes == old(attributes)[name := value] && classes == old(classes)
    {
      attributes := attributes[name := value];
    }

    /** `root.classList.add(name)` */
    method AddClass(name: string)
      modifies this
      ensures classes == old(classes) + {name} && attributes == old(attributes)
    {
      classes := classes + {name};
    }

    /** `root.classList.remove(name)` */
    method RemoveClass(name: string)
      modifies this
      ensures classes == old(classes) - {name} && attributes == old(attributes)
    {
      classes := classes - {name};
    }
  }
}
