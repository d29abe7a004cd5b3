/**
 * `BaseFactory.__getattr__`: any attribute whose first character is unchanged by upper-casing
 * names an engine component, and reading it gives a builder that pairs the component name with
 * the keyword arguments it is called with.
 */
module Factory {
  import opened Values

  /** `str.upper` on one character, for the ASCII letters. */
  function Upper(c: char): (r: char)
    ensures 'a' <= c <= 'z' ==> 'A' <= r <= 'Z' && r as int == c as int - 32
    ensures !('a' <= c <= 'z') ==> r == c
  {
    if 'a' <= c <= 'z' then (c as int - 32) as char else c
  }

  /** What reading attribute `item` of a factory gives. */
  datatype Attr =
    | Builder(component: string)  // the inner `w_`, closing over `item`
    | Nothing                     // the method falls off its end: `None`
    | IndexError                  // `item[0]` on the empty name

  function GetAttr(item: string): (r: Attr)
    ensures r.IndexError? <==> item == ""
    ensures r.Builder? ==> r.component == item
  {
    if item == "" then IndexError
    else if item[0] == Upper(item[0]) then Builder(item)
    else Nothing
  }

  /** Calling a builder with keyword arguments `kw`. */
  function Build(b: Attr, kw: map<string, Value>): (r: (string, map<string, Value>))
    requires b.Builder?
    ensures r.0 == b.component && r.1 == kw
  {
    (b.component, kw)
  }

  /** A name gives a builder exactly when it starts with anything but a lower-case letter. */
  lemma BuilderIffNotLower(item: string)
    ensures GetAttr(item).Builder? <==> item != "" && !('a' <= item[0] <= 'z')
    ensures GetAttr(item).Nothing? <==> item != "" && 'a' <= item[0] <= 'z'
  {
  }

  /** The builder returns the name it was read under and the keyword arguments unchanged. */
  lemma BuildReturnsNameAndKwargs(item: string, kw: map<string, Value>)
    requires item != "" && !('a' <= item[0] <= 'z')
    ensures GetAttr(item).Builder? && Build(GetAttr(item), kw) == (item, kw)
  {
  }
}
