/** Values that come back from the remote content store, and the pure
    document-to-record mapping the reasons and dashboard screens share. */
module Store {

  datatype Option<+T> = None | Some(value: T)

  /** What an awaited fetch produced: its value, or a thrown error. */
  datatype Outcome<+T> = Success(value: T) | Failure

  /** A document of the `reasons` collection; an absent field is `None`. */
  datatype Doc = Doc(id: string, text: Option<string>, icon: Option<string>)

  /** The `Reason` record both screens build from a document. */
  datatype Reason = Reason(id: string, text: string, icon: string)

  /** The red heart with its emoji presentation selector. */
  const Heart: string := "\U{2764}\U{FE0F}"

  /** JavaScript's `field || fallback` on a string field: an absent field
      and the empty string are both falsy. */
  function Or(field: Option<string>, fallback: string): (r: string)
    ensures field.Some? && field.value != "" ==> r == field.value
    ensures (field.None? || field.value == "") ==> r == fallback
  {
    match field
    case Some(s) => if s != "" then s else fallback
    case None => fallback
  }

  /** `docs.map(...)`: one record per document, in order, with `id` copied
      and the two fields defaulted. */
  function ToReasons(docs: seq<Doc>, missingText: string): (rs: seq<Reason>)
    ensures |rs| == |docs|
    ensures forall i :: 0 <= i < |docs| ==>
      rs[i].id == docs[i].id &&
      rs[i].text == Or(docs[i].text, missingText) &&
      rs[i].icon == Or(docs[i].icon, Heart)
  {
    if docs == [] then []
    else [Reason(docs[0].id, Or(docs[0].text, missingText), Or(docs[0].icon, Heart))]
         + ToReasons(docs[1..], missingText)
  }

  /** The documents a query with `limit(n)` returns: the first `n` of the
      collection in the store's order, or all of them when there are fewer. */
  function Limit<T>(s: seq<T>, n: nat): (r: seq<T>)
    ensures |r| <= n && |r| <= |s|
    ensures |s| <= n ==> r == s
    ensures |s| > n ==> |r| == n
    ensures forall i :: 0 <= i < |r| ==> r[i] == s[i]
  {
    if |s| <= n then s else s[..n]
  }
}
