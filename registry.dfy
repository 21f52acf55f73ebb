/** The process-wide registry of instantiated reporting handlers, keyed by
    name. Passed explicitly to whoever reports, rather than held as ambient
    global state. */
module Registry {

  class DictRegistry<T> {
    var items: map<string, T>

    /** A fresh registry holds no handler. */
    constructor ()
      ensures items == map[]
    {
      items := map[];
    }

    /** `register_item(key, item)`: binds `name` to `item`. A name already in
        use is refused (`registered` is false) and the registry is left as it
        was. */
    method RegisterItem(name: string, item: T) returns (registered: bool)
      modifies this
      ensures registered == (name !in old(items))
      ensures registered ==> items == old(items)[name := item]
      ensures !registered ==> items == old(items)
      ensures name in items
    {
      registered := name !in items;
      if registered {
        items := items[name := item];
      }
    }

    /** `unregister_item(key)`: removes the binding of `name`, if any, and no
        other. */
    method UnregisterItem(name: string)
      modifies this
      ensures items == old(items) - {name}
      ensures name !in items
      ensures forall k :: k in old(items) && k != name ==> k in items && items[k] == old(items)[k]
    {
      items := items - {name};
    }
  }
}
