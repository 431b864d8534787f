/**
 * The hush button of main.js: a click reads the body's `data-hush`
 * attribute, writes the opposite as "true" or "false", and relabels the
 * button: "speak" while the page is hushed, "hush" otherwise.
 */
module Hush {
  import opened Wrappers

  /** The body's `data-hush` attribute (None when absent) and the button's text. */
  datatype Page = Page(hushAttr: Option<string>, buttonText: string)

  /** The page counts as hushed exactly when the attribute reads "true". */
  predicate Hushed(attr: Option<string>) {
    attr == Some("true")
  }

  /** One click: hushed-ness flips, the attribute holds the new value in
      words, and the button text offers the way back. */
  function Toggle(p: Page): (p': Page)
    ensures Hushed(p'.hushAttr) <==> !Hushed(p.hushAttr)
    ensures p'.hushAttr == Some("true") || p'.hushAttr == Some("false")
    ensures p'.buttonText == "speak" <==> Hushed(p'.hushAttr)
    ensures p'.buttonText == "hush" <==> !Hushed(p'.hushAttr)
  {
    var hush := Hushed(p.hushAttr);
    Page(Some(if !hush then "true" else "false"), if hush then "hush" else "speak")
  }

  /** Two clicks restore hushed-ness and the button text that goes with it; an
      attribute already written as "true" or "false" comes back as it was,
      while an absent or other value comes back as "false". */
  lemma ToggleTwice(p: Page)
    ensures Hushed(Toggle(Toggle(p)).hushAttr) == Hushed(p.hushAttr)
    ensures Toggle(Toggle(p)).buttonText == (if Hushed(p.hushAttr) then "speak" else "hush")
    ensures p.hushAttr == Some("true") || p.hushAttr == Some("false") ==>
      Toggle(Toggle(p)).hushAttr == p.hushAttr
    ensures p.hushAttr != Some("true") && p.hushAttr != Some("false") ==>
      Toggle(Toggle(p)).hushAttr == Some("false")
  {
  }
}
