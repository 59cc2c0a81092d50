/** The sort specification accepted by the machine list query: an optional
    field name with an optional leading `-` (descending) or `+` (ascending). */
module MachineOrder {
  import opened Common

  datatype SortSpec = SortSpec(field: string, ascending: bool)

  const DefaultField := "created_at"

  /** `order || fallback`: an absent or empty order is replaced. */
  function OrFallback(order: Option<string>, fallback: string): string {
    if order.Some? && order.value != "" then order.value else fallback
  }

  /** `s.replace(/^[-+]/, '')`: one leading sign, if any, is dropped. */
  function StripSign(s: string): (r: string)
    ensures |s| > 0 && (s[0] == '-' || s[0] == '+') ==> r == s[1..]
    ensures !(|s| > 0 && (s[0] == '-' || s[0] == '+')) ==> r == s
  {
    if |s| > 0 && (s[0] == '-' || s[0] == '+') then s[1..] else s
  }

  /** `parseOrder` */
  function ParseOrder(order: Option<string>): (r: SortSpec)
    ensures r.ascending <==> !(order.Some? && |order.value| > 0 && order.value[0] == '-')
    ensures (order == None || order == Some("")) ==> r == SortSpec(DefaultField, true)
    ensures order.Some? && |order.value| > 0 && (order.value[0] == '-' || order.value[0] == '+') ==>
      r.field == order.value[1..]
    ensures order.Some? && |order.value| > 0 && order.value[0] != '-' && order.value[0] != '+' ==>
      r.field == order.value
  {
    SortSpec(StripSign(OrFallback(order, DefaultField)), !StartsWith(OrFallback(order, ""), "-"))
  }

  /** Only one sign is stripped: `--x` sorts descending on the field `-x`. */
  lemma DoubleMinusKeepsOne(x: string)
    ensures ParseOrder(Some("--" + x)) == SortSpec("-" + x, false)
  {
    var s := "--" + x;
    assert s[0] == '-' && s[1..] == "-" + x;
  }

  /** A bare `-` sorts descending on the empty field. */
  lemma MinusAlone()
    ensures ParseOrder(Some("-")) == SortSpec("", false)
  {
  }

  /** `+name` sorts ascending on `name`. */
  lemma PlusIsAscending(x: string)
    ensures ParseOrder(Some("+" + x)) == SortSpec(x, true)
  {
    var s := "+" + x;
    assert s[0] == '+' && s[1..] == x;
  }

  /** A sign followed by a field name round-trips through the parser. */
  lemma {:induction false} SignedRoundTrip(field: string, ascending: bool)
    requires |field| == 0 || (field[0] != '-' && field[0] != '+')
    ensures ParseOrder(Some((if ascending then "+" else "-") + field)) == SortSpec(field, ascending)
  {
    if ascending {
      PlusIsAscending(field);
    } else {
      var s := "-" + field;
      assert s[0] == '-' && s[1..] == field;
    }
  }
}
