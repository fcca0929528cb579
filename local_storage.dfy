/**
 * The browser state the client reads and changes: `localStorage` as a map from key
 * to stored item, whether storage access throws, and the current location path.
 *
 * `JSON.parse` is not modelled: each stored item carries its raw text (what
 * `getItem` returns) together with how that text parses.
 */
module LocalStorage {
  import opened Wrappers

  /** Key of the raw bearer token. */
  const AuthTokenKey := "auth_token"
  /** Key of the JSON session blob written at login. */
  const UserKey := "user"
  /** Key of the older JSON user blob some pages still write. */
  const UserInfoKey := "userInfo"

  /**
   * One property of a parsed session object: missing (or `undefined`), a string,
   * or any other JSON value (a number, boolean, `null`, array or object).
   */
  datatype Field = Missing | Str(s: string) | NonString

  /** The properties of a parsed session object that the client reads. */
  datatype Record = Record(role: Field, userName: Field)

  /**
   * How a stored text parses: not at all (or to `null`, on which every property
   * access throws), or to a value whose properties are read as a Record (a JSON
   * value that is not an object has every field Missing).
   */
  datatype Json = Unparsable | Object(rec: Record)

  /** A stored string and its JSON reading. */
  datatype Item = Item(text: string, json: Json)

  type Store = map<string, Item>

  /** `localStorage.getItem(key)`: the stored text, or `null`. */
  function GetItem(st: Store, key: string): (r: Option<string>)
    ensures r.Some? <==> key in st
    ensures r.Some? ==> r.value == st[key].text
  {
    if key in st then Some(st[key].text) else None
  }

  /** JavaScript truthiness of a `string | null`: present and non-empty. */
  predicate Truthy(v: Option<string>) {
    v.Some? && v.value != ""
  }

  /** What a reader that parses a key sees: nothing, text that fails to parse, or a record. */
  datatype Blob = Absent | Malformed | Parsed(rec: Record)

  /**
   * `const raw = localStorage.getItem(key); if (!raw) …; JSON.parse(raw)`:
   * a missing or empty item is Absent, otherwise its JSON reading decides.
   */
  function ReadBlob(st: Store, key: string): (b: Blob)
    ensures b.Absent? <==> !Truthy(GetItem(st, key))
    ensures b.Malformed? <==> Truthy(GetItem(st, key)) && st[key].json.Unparsable?
    ensures b.Parsed? ==> st[key].json == Object(b.rec)
  {
    if !Truthy(GetItem(st, key)) then Absent
    else match st[key].json
      case Unparsable => Malformed
      case Object(rec) => Parsed(rec)
  }

  /**
   * A snapshot of the browser state: storage, whether storage access throws,
   * `location.pathname`, and how many navigations assignments to `location.href`
   * have started (each one loads the target page, even the current one).
   */
  datatype Window = Window(store: Store, storageOk: bool, path: string, navigations: nat)

  /** The mutable browser state the interceptors act on. */
  class Browser {
    var store: Store
    var storageOk: bool
    var path: string
    var navigations: nat

    function State(): Window
      reads this
    {
      Window(store, storageOk, path, navigations)
    }

    constructor (w: Window)
      ensures State() == w
    {
      store, storageOk, path, navigations := w.store, w.storageOk, w.path, w.navigations;
    }

    /** `localStorage.removeItem(key)`; `ok` is false when the call throws, and then nothing changes. */
    method RemoveItem(key: string) returns (ok: bool)
      modifies this
      ensures ok == old(storageOk)
      ensures State() == if ok then old(State()).(store := old(store) - {key}) else old(State())
    {
      ok := storageOk;
      if ok {
        store := store - {key};
      }
    }

    /** `location.href = target` for a same-origin path: a navigation to `target` starts. */
    method Assign(target: string)
      modifies this
      ensures State() == old(State()).(path := target, navigations := old(navigations) + 1)
    {
      path := target;
      navigations := navigations + 1;
    }
  }
}
