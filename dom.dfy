/** The browser state the front end reads and writes: `localStorage`, the
    cookie jar behind `document.cookie`, and `window.location`. */
module Dom {
  import opened Wrappers
  import opened Strings

  /** One cookie as `document.cookie` lists it. */
  datatype Cookie = Cookie(name: string, value: string)

  function Serialize(c: Cookie): string {
    c.name + "=" + c.value
  }

  /** The pieces of `document.cookie` between its semicolons: the first cookie
      as is, every later one after the space that follows each ';'. */
  function CookieEntries(jar: seq<Cookie>): (entries: seq<string>)
    ensures |entries| == |jar|
    ensures forall i :: 0 <= i < |jar| ==> entries[i] == (if i == 0 then "" else " ") + Serialize(jar[i])
  {
    seq(|jar|, i requires 0 <= i < |jar| => (if i == 0 then "" else " ") + Serialize(jar[i]))
  }

  /** Reading `document.cookie`: `name=value` pairs joined by "; ". */
  function DocumentCookie(jar: seq<Cookie>): string {
    if jar == [] then "" else Join(CookieEntries(jar), ';')
  }

  /** A cookie the browser can hold and list back: a non-empty name without
      '=', ';' or leading white space, a value without ';' or trailing white
      space. The value may contain '='. */
  predicate WellFormed(c: Cookie) {
    && c.name != [] && !IsSpace(c.name[0]) && '=' !in c.name && ';' !in c.name
    && ';' !in c.value && (c.value == [] || !IsSpace(c.value[|c.value| - 1]))
  }

  predicate WellFormedJar(jar: seq<Cookie>) {
    forall i :: 0 <= i < |jar| ==> WellFormed(jar[i])
  }

  /** The value of the first cookie named `name`, if any. */
  function JarLookup(jar: seq<Cookie>, name: string): (r: Option<string>)
    ensures r.None? <==> forall i :: 0 <= i < |jar| ==> jar[i].name != name
  {
    if jar == [] then None
    else if jar[0].name == name then Some(jar[0].value)
    else JarLookup(jar[1..], name)
  }

  /** The jar after `document.cookie = "<name>=; expires=<the epoch>; path=/;"`:
      the cookies of that name are gone, every other one stays, in order. */
  function Expire(jar: seq<Cookie>, name: string): (r: seq<Cookie>)
    ensures |r| <= |jar|
    ensures forall i :: 0 <= i < |r| ==> r[i].name != name && r[i] in jar
    ensures forall c :: c in jar && c.name != name ==> c in r
  {
    if jar == [] then []
    else (if jar[0].name == name then [] else [jar[0]]) + Expire(jar[1..], name)
  }

  /** An expired name reads back as absent. */
  lemma ExpireHides(jar: seq<Cookie>, name: string)
    ensures JarLookup(Expire(jar, name), name).None?
  {
  }

  /** Expiring one name leaves the lookup of every other name as it was. */
  lemma {:induction false} ExpireKeepsOthers(jar: seq<Cookie>, name: string, other: string)
    requires other != name
    ensures JarLookup(Expire(jar, name), other) == JarLookup(jar, other)
  {
    if jar != [] {
      ExpireKeepsOthers(jar[1..], name, other);
      var rest := Expire(jar[1..], name);
      if jar[0].name == name {
        assert Expire(jar, name) == rest;
      } else {
        var r := [jar[0]] + rest;
        assert Expire(jar, name) == r;
        assert r[0] == jar[0] && r[1..] == rest;
      }
    }
  }

  lemma ExpireWellFormed(jar: seq<Cookie>, name: string)
    requires WellFormedJar(jar)
    ensures WellFormedJar(Expire(jar, name))
  {
    var r := Expire(jar, name);
    forall i | 0 <= i < |r|
      ensures WellFormed(r[i])
    {
      assert r[i] in jar;
    }
  }

  /** The browser window: its storage, its cookies and its location. */
  class Window {
    var storage: map<string, string>
    var jar: seq<Cookie>
    var pathname: string
    var href: string

    constructor (storage: map<string, string>, jar: seq<Cookie>, pathname: string)
      ensures this.storage == storage && this.jar == jar
      ensures this.pathname == pathname && this.href == pathname
    {
      this.storage := storage;
      this.jar := jar;
      this.pathname := pathname;
      this.href := pathname;
    }

    /** `document.cookie`. */
    function Cookie(): string
      reads this
    {
      DocumentCookie(jar)
    }

    /** `localStorage.getItem(key)`. */
    function GetItem(key: string): (r: Option<string>)
      reads this
      ensures r.Some? <==> key in storage
      ensures r.Some? ==> r.value == storage[key]
    {
      if key in storage then Some(storage[key]) else None
    }

    /** `localStorage.setItem(key, value)`. */
    method SetItem(key: string, value: string)
      modifies this
      ensures storage == old(storage)[key := value]
      ensures jar == old(jar) && pathname == old(pathname) && href == old(href)
    {
      storage := storage[key := value];
    }

    /** `localStorage.removeItem(key)`. */
    method RemoveItem(key: string)
      modifies this
      ensures storage == old(storage) - {key}
      ensures jar == old(jar) && pathname == old(pathname) && href == old(href)
    {
      storage := storage - {key};
    }

    /** Assigning an expired cookie of that name with `path=/`. */
    method ExpireCookie(name: string)
      modifies this
      ensures jar == Expire(old(jar), name)
      ensures storage == old(storage) && pathname == old(pathname) && href == old(href)
    {
      jar := Expire(jar, name);
    }

    /** `window.location.href = url`. */
    method Navigate(url: string)
      modifies this
      ensures href == url
      ensures storage == old(storage) && jar == old(jar) && pathname == old(pathname)
    {
      href := url;
    }
  }
}
