/** The page window of a list request, the `Range` request header that
    announces it, and the total read back from the count header. The total
    of a `Content-Range` value is its complete-length field, the text after
    the last `/` (section 14.4 of RFC 9110; the resource name stands in the
    place of the range unit). */
module Pagination {
  import opened JsonValues
  import opened Decimal

  /** First index of page `page` (1-based) of `perPage` records. */
  function RangeStart(page: int, perPage: int): int {
    (page - 1) * perPage
  }

  /** Last index (inclusive) of that page. */
  function RangeEnd(page: int, perPage: int): int {
    page * perPage - 1
  }

  /** A page holds exactly `perPage` indices. */
  lemma WindowSize(page: int, perPage: int)
    ensures RangeEnd(page, perPage) - RangeStart(page, perPage) + 1 == perPage
  {
  }

  /** Page `page + 1` starts right after page `page` ends. */
  lemma NextPageFollows(page: int, perPage: int)
    ensures RangeStart(page + 1, perPage) == RangeEnd(page, perPage) + 1
  {
  }

  /** The first page starts at index 0. */
  lemma FirstPage(perPage: int)
    ensures RangeStart(1, perPage) == 0 && RangeEnd(1, perPage) == perPage - 1
  {
  }

  /** The pages partition the indices: index `i` lies on exactly one page,
      page `i / perPage + 1`. */
  lemma PageOfIndex(i: nat, page: int, perPage: int)
    requires page >= 1 && perPage >= 1
    ensures RangeStart(page, perPage) <= i <= RangeEnd(page, perPage) <==> page == i / perPage + 1
  {
    var q, r := i / perPage, i % perPage;
    assert i == q * perPage + r && 0 <= r < perPage;
    if page == q + 1 {
      assert RangeStart(page, perPage) == q * perPage;
      assert RangeEnd(page, perPage) == q * perPage + perPage - 1;
    } else if page <= q {
      assert (page - 1) * perPage + perPage == page * perPage;
      assert page * perPage <= q * perPage by { MulMonotone(page, q, perPage); }
    } else {
      assert q + 1 <= page - 1;
      assert (q + 1) * perPage <= (page - 1) * perPage by { MulMonotone(q + 1, page - 1, perPage); }
      assert (q + 1) * perPage == q * perPage + perPage;
    }
  }

  lemma MulMonotone(a: int, b: int, c: nat)
    requires a <= b
    ensures a * c <= b * c
  {
  }

  /** `${resource}=${rangeStart}-${rangeEnd}` */
  function RangeHeaderValue(resource: string, start: int, end: int): string {
    resource + "=" + IntText(start) + "-" + IntText(end)
  }

  /** `s.split('/').pop()`: the text after the last `/`, or all of `s`
      when it has none. */
  function AfterLastSlash(s: string): (r: string)
    ensures |r| <= |s| && r == s[|s| - |r|..]
    ensures '/' !in r
    ensures |r| < |s| ==> s[|s| - |r| - 1] == '/'
  {
    if s == [] then []
    else if s[|s| - 1] == '/' then []
    else AfterLastSlash(s[..|s| - 1]) + [s[|s| - 1]]
  }

  /** The total announced by a `Content-Range` value. */
  function ContentRangeTotal(value: string): Option<nat> {
    ParseIntPrefix(AfterLastSlash(value))
  }

  /** What a server writes for records `first..last` of `total`. */
  function ContentRangeValue(unit: string, first: nat, last: nat, total: nat): string {
    unit + " " + NatText(first) + "-" + NatText(last) + "/" + NatText(total)
  }

  /** The text after the last slash of `prefix/tail` is `tail` when `tail`
      has no slash. */
  lemma {:induction false} AfterLastSlashOf(prefix: string, tail: string)
    requires '/' !in tail
    ensures AfterLastSlash(prefix + "/" + tail) == tail
  {
    var s := prefix + "/" + tail;
    if tail != [] {
      var front := tail[..|tail| - 1];
      assert s[..|s| - 1] == prefix + "/" + front;
      assert '/' !in front by {
        forall i | 0 <= i < |front| ensures front[i] != '/' { assert front[i] == tail[i]; }
      }
      AfterLastSlashOf(prefix, front);
      assert tail == front + [tail[|tail| - 1]];
    }
  }

  /** Round trip: the total a server announces in `Content-Range` is the
      total the provider reads. */
  lemma ContentRangeRoundTrip(unit: string, first: nat, last: nat, total: nat)
    ensures ContentRangeTotal(ContentRangeValue(unit, first, last, total)) == Some(total)
  {
    var prefix := unit + " " + NatText(first) + "-" + NatText(last);
    assert ContentRangeValue(unit, first, last, total) == prefix + "/" + NatText(total);
    AfterLastSlashOf(prefix, NatText(total));
    ParseNatText(total, []);
    assert NatText(total) + [] == NatText(total);
  }

  /** An unknown complete length (`*`) reads as NaN. */
  lemma UnknownLength(unit: string, first: nat, last: nat)
    ensures ContentRangeTotal(unit + " " + NatText(first) + "-" + NatText(last) + "/*") == None
  {
    var prefix := unit + " " + NatText(first) + "-" + NatText(last);
    assert prefix + "/*" == prefix + "/" + "*";
    AfterLastSlashOf(prefix, "*");
  }
}
