/** Amazon Resource Names: `arn:partition:service:region:account:resource`.
    The first five fields never hold a colon; the resource may. */
module Arns {
  import opened Wrappers

  datatype Arn = Arn(partition: string, service: string, region: string, account: string, resource: string)

  predicate NoColon(s: string) {
    forall i :: 0 <= i < |s| ==> s[i] != ':'
  }

  /** The colon-delimited fields before the resource hold no colon. */
  predicate WellFormed(a: Arn) {
    NoColon(a.partition) && NoColon(a.service) && NoColon(a.region) && NoColon(a.account)
  }

  function Format(a: Arn): string {
    "arn:" + a.partition + ":" + a.service + ":" + a.region + ":" + a.account + ":" + a.resource
  }

  /** Splits at the first colon: the text before it and the text after it. */
  function SplitAtColon(s: string): (r: Option<(string, string)>)
    decreases |s|
    ensures r.None? ==> NoColon(s)
    ensures r.Some? ==> NoColon(r.value.0) && s == r.value.0 + ":" + r.value.1
  {
    if |s| == 0 then None
    else if s[0] == ':' then Some(("", s[1..]))
    else match SplitAtColon(s[1..])
      case None => None
      case Some((head, tail)) => Some(([s[0]] + head, tail))
  }

  lemma {:induction false} SplitAtColonJoin(head: string, tail: string)
    requires NoColon(head)
    ensures SplitAtColon(head + ":" + tail) == Some((head, tail))
    decreases |head|
  {
    var s := head + ":" + tail;
    if |head| > 0 {
      assert s[0] == head[0];
      assert s[1..] == head[1..] + ":" + tail;
      SplitAtColonJoin(head[1..], tail);
      assert [head[0]] + head[1..] == head;
    }
  }

  /** Reads the five delimited fields and the resource back out of a string. */
  function Parse(s: string): (r: Option<Arn>)
    ensures r.Some? ==> WellFormed(r.value) && Format(r.value) == s
  {
    if |s| < 4 || s[..4] != "arn:" then None
    else
      assert s == "arn:" + s[4..];
      match SplitAtColon(s[4..])
      case None => None
      case Some((partition, rest1)) =>
        match SplitAtColon(rest1)
        case None => None
        case Some((service, rest2)) =>
          match SplitAtColon(rest2)
          case None => None
          case Some((region, rest3)) =>
            match SplitAtColon(rest3)
            case None => None
            case Some((account, resource)) =>
              FormatOfFields(s, partition, rest1, service, rest2, region, rest3, account, resource);
              Some(Arn(partition, service, region, account, resource))
  }

  /** Reassembles a string from the pieces Parse splits it into. */
  lemma FormatOfFields(s: string, partition: string, rest1: string, service: string, rest2: string,
                       region: string, rest3: string, account: string, resource: string)
    requires s == "arn:" + (partition + ":" + rest1)
    requires rest1 == service + ":" + rest2
    requires rest2 == region + ":" + rest3
    requires rest3 == account + ":" + resource
    ensures Format(Arn(partition, service, region, account, resource)) == s
  {
  }

  /** Parse is the inverse of Format on well-formed ARNs, and accepts nothing else. */
  lemma ParseFormat(a: Arn, s: string)
    ensures Parse(s) == Some(a) <==> WellFormed(a) && Format(a) == s
  {
    if WellFormed(a) && Format(a) == s {
      var rest3 := a.account + ":" + a.resource;
      var rest2 := a.region + ":" + rest3;
      var rest1 := a.service + ":" + rest2;
      assert s[..4] == "arn:";
      assert s[4..] == a.partition + ":" + rest1;
      SplitAtColonJoin(a.partition, rest1);
      SplitAtColonJoin(a.service, rest2);
      SplitAtColonJoin(a.region, rest3);
      SplitAtColonJoin(a.account, a.resource);
    }
  }

}
