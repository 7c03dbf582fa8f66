/**
 The small slice of the browser that the page scripts touch: an element's
 class list (a set of class names), the page's local storage (a map from
 string keys to string values) and an optional value for an element or an
 item that may be missing.
 */
module Dom {

  datatype Option<+T> = None | Some(value: T)

  /** `classList.add(c)`: `c` is present afterwards, every other class is kept. */
  function AddClass(classes: set<string>, c: string): (r: set<string>)
    ensures c in r
    ensures r - {c} == classes - {c}
  {
    classes + {c}
  }

  /** `classList.remove(c)`: `c` is absent afterwards, every other class is kept. */
  function RemoveClass(classes: set<string>, c: string): (r: set<string>)
    ensures c !in r
    ensures r - {c} == classes - {c}
  {
    classes - {c}
  }

  /** `classList.toggle(c)`: flips the presence of `c`, every other class is kept. */
  function ToggleClass(classes: set<string>, c: string): (r: set<string>)
    ensures c in r <==> c !in classes
    ensures r - {c} == classes - {c}
  {
    if c in classes then classes - {c} else classes + {c}
  }

  /** Toggling the same class twice restores the class list. */
  lemma ToggleClassTwice(classes: set<string>, c: string)
    ensures ToggleClass(ToggleClass(classes, c), c) == classes
  {
    var once := ToggleClass(classes, c);
    var twice := ToggleClass(once, c);
    assert c in twice <==> c in classes;
    assert twice - {c} == classes - {c};
    assert forall x :: x in twice <==> x in classes by {
      forall x ensures x in twice <==> x in classes {
        if x != c {
          assert x in twice <==> x in twice - {c};
          assert x in classes <==> x in classes - {c};
        }
      }
    }
  }

  /**
   The string a boolean becomes when it is passed to `localStorage.setItem`,
   which coerces its value argument with `String(...)`.
   */
  function BoolString(b: bool): (r: string)
    ensures r == "true" <==> b
    ensures r == "false" <==> !b
  {
    if b then "true" else "false"
  }

  /** `localStorage.setItem(key, value)`: `key` holds `value`, no other key changes. */
  function SetItem(storage: map<string, string>, key: string, value: string): (r: map<string, string>)
    ensures key in r && r[key] == value
    ensures r - {key} == storage - {key}
  {
    storage[key := value]
  }

  /** `localStorage.getItem(key)`: the stored string, or `None` (JavaScript `null`) when absent. */
  function GetItem(storage: map<string, string>, key: string): (r: Option<string>)
    ensures r.Some? <==> key in storage
    ensures r.Some? ==> r.value == storage[key]
  {
    if key in storage then Some(storage[key]) else None
  }

  /** A stored boolean reads back as the exact string "true" iff it was true. */
  lemma StoredBoolReadsBack(storage: map<string, string>, key: string, b: bool)
    ensures GetItem(SetItem(storage, key, BoolString(b)), key) == Some("true") <==> b
  {
  }
}
