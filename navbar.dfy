/**
  `frontend/src/app/pre/components/NavBar.tsx`: deriving the user id from the client
  address that `/api/userid` reports, and the one `setUserId` call after the lookup.
 */
module NavBar {
  import opened Json
  import opened Strings
  import opened Session

  const USER_ID_PREFIX: string := "A"
  const USER_ID_DEFAULT: string := "901"

  /**
    The user id for an address: with exactly four dot-separated parts, the prefix and
    the last part left-padded with `0` to three characters; otherwise the default.
   */
  function UserIdFromAddress(address: string): (id: string)
    ensures |id| >= 4 && id[0] == 'A'
    ensures |Split(address, '.')| != 4 ==> id == "A901"
    ensures |Split(address, '.')| == 4 ==>
      var last := Split(address, '.')[3];
      |id| == 1 + (if |last| >= 3 then |last| else 3) && id[|id| - |last|..] == last
      && forall i :: 1 <= i < |id| - |last| ==> id[i] == '0'
  {
    var parts := Split(address, '.');
    if |parts| == 4 then USER_ID_PREFIX + PadStart(parts[3], 3, '0')
    else USER_ID_PREFIX + USER_ID_DEFAULT
  }

  /** A dotted quad of dot-free parts gives the prefix and its padded last part. */
  lemma DottedQuad(a: string, b: string, c: string, d: string)
    requires '.' !in a && '.' !in b && '.' !in c && '.' !in d
    ensures UserIdFromAddress(a + "." + b + "." + c + "." + d) == "A" + PadStart(d, 3, '0')
  {
    var parts := [a, b, c, d];
    SplitJoin(parts, '.');
    assert Join(parts, '.') == a + "." + b + "." + c + "." + d by {
      assert Join(parts[3..], '.') == d;
      assert Join(parts[2..], '.') == c + "." + d;
      assert Join(parts[1..], '.') == b + "." + c + "." + d;
    }
  }

  /** Any address without exactly three dots, the empty one included, gets the default id. */
  lemma OtherAddressesDefault(address: string)
    requires Count(address, '.') != 3
    ensures UserIdFromAddress(address) == "A901"
  {
    SplitCount(address, '.');
  }

  /** The host number of an IPv4 address becomes a three-digit id that reads back to it. */
  lemma HostNumberKept(a: nat, b: nat, c: nat, d: nat)
    requires d < 1000
    ensures var id := UserIdFromAddress(Decimal(a) + "." + Decimal(b) + "." + Decimal(c) + "." + Decimal(d));
            |id| == 4 && id == "A" + ZeroPadded(d, 3) && AllDigits(id[1..]) && DigitsValue(id[1..]) == d
  {
    DecimalParts(a);
    DecimalParts(b);
    DecimalParts(c);
    DecimalParts(d);
    DottedQuad(Decimal(a), Decimal(b), Decimal(c), Decimal(d));
    DecimalLength(d);
    var id := "A" + ZeroPadded(d, 3);
    assert id[1..] == ZeroPadded(d, 3);
  }

  /** A decimal numeral has no dot. */
  lemma DecimalParts(n: nat)
    ensures '.' !in Decimal(n)
  {
  }

  /** The example from the component: host 7 on a private network. */
  lemma PrivateAddressExample()
    ensures UserIdFromAddress("192.168.1.7") == "A007"
  {
    DottedQuad("192", "168", "1", "7");
    ExampleParts();
  }

  /** The example address, part by part, and its host number padded. */
  lemma ExampleParts()
    ensures "192" + "." + "168" + "." + "1" + "." + "7" == "192.168.1.7"
    ensures PadStart("7", 3, '0') == "007"
  {
    var padded := PadStart("7", 3, '0');
    assert |padded| == 3 && padded[2] == '7' && padded[0] == '0' && padded[1] == '0';
  }

  /** `data.response["user-address"]` */
  function AddressOf(data: Json): Access {
    ThenProperty(Property(data, "response"), "user-address")
  }

  /**
    The address read throws exactly when the body is not an object or its `response`
    member is null or missing; otherwise it yields that member's `user-address`.
   */
  lemma AddressThrows(data: Json)
    ensures AddressOf(data).TypeError? <==>
              !data.Obj? || Get(data.fields, "response") == Null || Get(data.fields, "response") == Undefined
    ensures data.Obj? && Get(data.fields, "response").Obj? ==>
              AddressOf(data) == Value(Get(Get(data.fields, "response").fields, "user-address"))
  {
  }

  /** The TypeError `ipAddress.split(".")` throws on a value that is not a string. */
  function SplitError(v: Json): (message: string)
    requires !v.Str?
    ensures message != ""
  {
    match Property(v, "split")
    case TypeError(m) => m
    case Value(_) => "ipAddress.split is not a function"
  }

  /**
    `getSample` once `fetch(url)` and `res.json()` have settled: `None` when either
    rejected. A string address sets the derived user id, exactly once; a failed
    request, a missing address or one that is not a string leaves the id as it was.
    `rejected` is the TypeError the function's own reads throw.
   */
  method LookupSettled(page: Page, data: Option<Json>) returns (rejected: Option<string>)
    modifies page`userId
    ensures data.None? ==> page.userId == old(page.userId) && rejected.None?
    ensures data.Some? && AddressOf(data.value).Value? && AddressOf(data.value).v.Str? ==>
      page.userId == UserIdFromAddress(AddressOf(data.value).v.s) && rejected.None?
    ensures data.Some? && !(AddressOf(data.value).Value? && AddressOf(data.value).v.Str?) ==>
      page.userId == old(page.userId) && rejected.Some? && rejected.value != ""
  {
    if data.None? {
      return None;
    }
    match AddressOf(data.value) {
      case TypeError(message) =>
        rejected := Some(message);
      case Value(address) =>
        if address.Str? {
          page.userId := UserIdFromAddress(address.s);
          rejected := None;
        } else {
          rejected := Some(SplitError(address));
        }
    }
  }
}
