/**
  Coding keys and their rendering as element or attribute names.

  A key is its string value plus, for an `XMLQualifiedKey`, an optional
  namespace. The namespace provider is modelled as a map from namespace to
  prefix; how prefixes are allocated and declared on the root element is not
  part of this model.
 */
module Keys {

  import opened Results

  datatype Key = Key(name: string, namespace: Option<string>)

  /** A plain coding key: no namespace. */
  function Plain(name: string): (k: Key)
    ensures k.name == name && k.namespace.None?
  {
    Key(name, None)
  }

  /** True when the key's namespace has a prefix in the provider. */
  predicate Registered(namespaces: map<string, string>, key: Key)
  {
    key.namespace.Some? && key.namespace.value in namespaces
  }

  /**
    The name a key is written under (`_converted`): `prefix:name` when its
    namespace is registered, the plain string value otherwise.
   */
  function Render(namespaces: map<string, string>, key: Key): (r: string)
    ensures Registered(namespaces, key) ==> r == namespaces[key.namespace.value] + ":" + key.name
    ensures !Registered(namespaces, key) ==> r == key.name
  {
    match key.namespace
    case Some(ns) => if ns in namespaces then namespaces[ns] + ":" + key.name else key.name
    case None => key.name
  }
}
