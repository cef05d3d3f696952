/** Small shared vocabulary: optional values, JavaScript truthiness of a
    string-valued field, and substring containment for rendered messages. */
module Common {

  /** An optional value; `None` stands for a field or document that is undefined. */
  datatype Option<+T> = None | Some(value: T)

  /** JavaScript truthiness of a field that holds a string when present:
      `undefined` and the empty string are falsy, every other string is truthy. */
  predicate Truthy(v: Option<string>) {
    v.Some? && v.value != ""
  }

  /** `s` contains `t` as a contiguous piece (JavaScript `s.includes(t)`). */
  ghost predicate Contains(s: string, t: string) {
    exists i :: 0 <= i <= |s| && t <= s[i..]
  }

  /** A string placed between two others is contained in the concatenation. */
  lemma ContainsMiddle(a: string, t: string, b: string)
    ensures Contains(a + t + b, t)
  {
    var s := a + t + b;
    assert s[|a|..] == t + b;
  }
}
