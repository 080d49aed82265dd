/** Stand-ins for the two pieces of `java.lang` the on-behalf-of contract
    relies on: a reference that may be `null`, and `String.contains`. */
module JavaLang {

  /** A reference of type `T` that is either `null` or points at a value. */
  datatype Nullable<+T> = Null | NonNull(value: T)

  /** True when `fragment` occurs somewhere inside `text`, as Java's
      `String.contains` (and Hamcrest's `containsString`) decides it. */
  predicate Contains(text: string, fragment: string)
  {
    exists i | 0 <= i <= |text| :: OccursAt(text, fragment, i)
  }

  /** `fragment` starts at index `i` of `text`. */
  predicate OccursAt(text: string, fragment: string, i: int)
  {
    0 <= i <= |text| - |fragment| && text[i..i + |fragment|] == fragment
  }

  /** A string ending in `fragment` contains it. */
  lemma ContainsSuffix(prefix: string, fragment: string)
    ensures Contains(prefix + fragment, fragment)
  {
    var text := prefix + fragment;
    assert OccursAt(text, fragment, |prefix|);
  }
}
