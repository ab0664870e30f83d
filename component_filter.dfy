/**
 * The whitelist rule of the adapter configuration and the private
 * `handleComponent` of the root-package adapter, the one place where the rule
 * is applied: a component is put into the target map only when the filter for
 * its kind is empty ("include all") or names its key.
 */
module ComponentFilter {
  import opened TwinState

  /** The key passes the filter: an empty filter includes every key. */
  predicate Included(componentFilter: seq<Key>, componentKey: Key) {
    |componentFilter| == 0 || componentKey in componentFilter
  }

  /** An empty filter matches any key; a non-empty one matches exactly the keys it lists. */
  lemma IncludedMeansListedOrUnrestricted(componentFilter: seq<Key>, componentKey: Key)
    ensures componentFilter == [] ==> Included(componentFilter, componentKey)
    ensures componentFilter != [] ==> (Included(componentFilter, componentKey) <==> componentKey in componentFilter)
  {
  }

  /**
   * The map after `componentMap.put(componentKey, component)` is done only when
   * the key passes the filter: the component is stored under its key exactly
   * when the key is included, and every other entry is kept.
   */
  function FilteredPut<T>(componentKey: Key, component: T, componentMap: map<Key, T>, componentFilter: seq<Key>)
    : (updated: map<Key, T>)
    ensures Included(componentFilter, componentKey) ==> componentKey in updated && updated[componentKey] == component
    ensures !Included(componentFilter, componentKey) ==> updated == componentMap
    ensures updated.Keys == componentMap.Keys + (if Included(componentFilter, componentKey) then {componentKey} else {})
    ensures forall k :: k in componentMap && k != componentKey ==> updated[k] == componentMap[k]
  {
    if Included(componentFilter, componentKey) then componentMap[componentKey := component] else componentMap
  }

  /** A `Map<String, T>` owned by the caller, which `handleComponent` writes into. */
  class ComponentMap<T> {
    var entries: map<Key, T>

    constructor (entries: map<Key, T>)
      ensures this.entries == entries
    {
      this.entries := entries;
    }
  }

  /** `handleComponent(componentKey, component, componentMap, componentFilter)`, updating the caller's map in place. */
  method HandleComponent<T>(componentKey: Key, component: T, componentMap: ComponentMap<T>, componentFilter: seq<Key>)
    modifies componentMap
    ensures componentMap.entries == FilteredPut(componentKey, component, old(componentMap.entries), componentFilter)
  {
    if |componentFilter| == 0 || componentKey in componentFilter {
      componentMap.entries := componentMap.entries[componentKey := component];
    }
  }

  /** Several `handleComponent` calls in a row, one per (key, component) pair, in order. */
  ghost function HandleEach<T>(components: seq<(Key, T)>, componentMap: map<Key, T>, componentFilter: seq<Key>)
    : map<Key, T>
    decreases |components|
  {
    if components == [] then componentMap
    else
      var last := components[|components| - 1];
      FilteredPut(last.0, last.1, HandleEach(components[..|components| - 1], componentMap, componentFilter), componentFilter)
  }

  /** The keys of `components` that pass the filter. */
  ghost function IncludedKeys<T>(components: seq<(Key, T)>, componentFilter: seq<Key>): set<Key> {
    set i | 0 <= i < |components| && Included(componentFilter, components[i].0) :: components[i].0
  }

  /**
   * Binding a list of components through `handleComponent` adds exactly the keys
   * the filter lets through, keeps every entry already present under any other
   * key, and leaves nothing outside the filter behind: with a non-empty filter,
   * every key added is one the filter lists.
   */
  lemma {:induction false} HandleEachAddsExactlyIncluded<T>(components: seq<(Key, T)>, componentMap: map<Key, T>, componentFilter: seq<Key>)
    ensures HandleEach(components, componentMap, componentFilter).Keys == componentMap.Keys + IncludedKeys(components, componentFilter)
    ensures forall k :: k in componentMap && k !in IncludedKeys(components, componentFilter) ==>
              HandleEach(components, componentMap, componentFilter)[k] == componentMap[k]
    ensures componentFilter != [] ==>
              forall k :: k in HandleEach(components, componentMap, componentFilter) && k !in componentMap ==> k in componentFilter
    decreases |components|
  {
    if components != [] {
      var n := |components| - 1;
      var prefix := components[..n];
      HandleEachAddsExactlyIncluded(prefix, componentMap, componentFilter);
      var before := HandleEach(prefix, componentMap, componentFilter);
      assert HandleEach(components, componentMap, componentFilter)
          == FilteredPut(components[n].0, components[n].1, before, componentFilter);
      var incl := if Included(componentFilter, components[n].0) then {components[n].0} else {};
      assert IncludedKeys(components, componentFilter) == IncludedKeys(prefix, componentFilter) + incl by {
        forall k | k in IncludedKeys(components, componentFilter)
          ensures k in IncludedKeys(prefix, componentFilter) + incl
        {
          var i :| 0 <= i < |components| && Included(componentFilter, components[i].0) && components[i].0 == k;
          if i < n { assert prefix[i] == components[i]; }
        }
        forall k | k in IncludedKeys(prefix, componentFilter)
          ensures k in IncludedKeys(components, componentFilter)
        {
          var i :| 0 <= i < |prefix| && Included(componentFilter, prefix[i].0) && prefix[i].0 == k;
          assert components[i] == prefix[i];
        }
      }
    }
  }
}
