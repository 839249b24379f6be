/** The checkout form: its state as nested JavaScript objects, the generic
    input handler that writes `parent.child` names into a nested object,
    `validateForm` with its error messages, and the card-number and expiry
    formatters the card inputs apply to what is typed. */
module CheckoutForm {
  import opened Types
  import Text

  // ---------------------------------------------------------------------
  // Form state

  /** A form value: a string, or an object of strings (the shipping
      address). */
  datatype Field = Plain(text: string) | Nested(fields: map<string, string>)

  type FormData = map<string, Field>

  /** Error messages by input name; an empty message shows nothing. */
  type Errors = map<string, string>

  /** The state the component starts with. */
  const InitialForm: FormData :=
    map["shippingAddress" := Nested(map["street" := "", "city" := "", "state" := "", "zipCode" := "", "country" := ""]),
        "paymentMethod" := Plain("credit_card"),
        "cardNumber" := Plain(""), "cardName" := Plain(""), "cardExpiry" := Plain(""), "cardCvv" := Plain("")]

  /** The value a plain field reads as; a missing key is `undefined`, which
      every check treats like the empty string. */
  function Top(f: FormData, k: string): string {
    if k in f && f[k].Plain? then f[k].text else ""
  }

  /** `formData.shippingAddress[k]`: a missing part, or a string in place
      of the address object, reads as `undefined`. */
  function AddressPart(f: FormData, k: string): string
    requires "shippingAddress" in f
  {
    match f["shippingAddress"]
    case Nested(m) => if k in m then m[k] else ""
    case Plain(_) => ""
  }

  /** The forms `validateForm` reads without throwing: the address object
      exists (reading a part of `undefined` throws), and no card field
      holds an object. */
  predicate Readable(f: FormData) {
    "shippingAddress" in f
    && !("cardNumber" in f && f["cardNumber"].Nested?)
    && !("cardName" in f && f["cardName"].Nested?)
    && !("cardExpiry" in f && f["cardExpiry"].Nested?)
    && !("cardCvv" in f && f["cardCvv"].Nested?)
  }

  // ---------------------------------------------------------------------
  // handleInputChange

  function Get(f: FormData, k: string): Option<Field> {
    if k in f then Some(f[k]) else None
  }

  /** `{ ...v }` as a map of strings: `undefined` spreads to nothing, an
      object to its fields and a string to its characters under their
      indices. */
  function Spread(v: Option<Field>): (m: map<string, string>)
    ensures v.None? ==> m == map[]
    ensures v.Some? && v.value.Nested? ==> m == v.value.fields
    ensures v.Some? && v.value.Plain? ==> forall i :: 0 <= i < |v.value.text| ==> Text.NatToString(i) in m
  {
    match v
    case None => map[]
    case Some(Nested(fields)) => fields
    case Some(Plain(s)) =>
      assert forall i: nat, j: nat :: i < |s| && j < |s| && Text.NatToString(i) == Text.NatToString(j) ==> i == j by {
        forall i: nat, j: nat | i < |s| && j < |s| && Text.NatToString(i) == Text.NatToString(j) ensures i == j {
          Text.NatToStringInjective(i, j);
        }
      }
      map i: nat | i < |s| :: Text.NatToString(i) := [s[i]]
  }

  /** The top-level key an input name writes: the part before the first
      dot, or the whole name. */
  function Target(name: string): string {
    if '.' in name then Text.Split(name, '.')[0] else name
  }

  /** `handleInputChange` for the input `name` receiving `value`: a dotted
      name `parent.child` writes `child` into a copy of the object under
      `parent`, any other name writes a top-level string; a shown error for
      that name is then blanked. */
  function HandleInputChange(f: FormData, errors: Errors, name: string, value: string): (r: (FormData, Errors))
    ensures '.' !in name ==> r.0 == f[name := Plain(value)]
    ensures '.' in name ==> Target(name) in r.0 && r.0[Target(name)].Nested?
                            && r.0 == f[Target(name) := r.0[Target(name)]]
    ensures r.1.Keys == errors.Keys
    ensures name in r.1 ==> r.1[name] == ""
    ensures forall k :: k in errors && k != name ==> r.1[k] == errors[k]
  {
    var form :=
      if '.' in name then
        Text.SplitHasTwo(name, '.');
        var parts := Text.Split(name, '.');
        var parent := parts[0];
        f[parent := Nested(Spread(Get(f, parent))[parts[1] := value])]
      else f[name := Plain(value)];
    var errs := if name in errors && errors[name] != "" then errors[name := ""] else errors;
    (form, errs)
  }

  /** An input named `parent.child` sets that one part of the object under
      `parent` and keeps its other parts and every other field. */
  lemma NestedChange(f: FormData, errors: Errors, parent: string, child: string, value: string)
    requires '.' !in parent && '.' !in child
    requires parent in f && f[parent].Nested?
    ensures var r := HandleInputChange(f, errors, parent + "." + child, value).0;
            r.Keys == f.Keys && r[parent] == Nested(f[parent].fields[child := value])
            && forall k :: k in f && k != parent ==> r[k] == f[k]
  {
    var name := parent + "." + child;
    Text.SplitJoin([parent, child], '.');
    assert Text.Join([parent, child], '.') == name by {
      assert Text.Join([parent, child][1..], '.') == child;
    }
    assert name[|parent|] == '.';
  }

  /** Typing into the page's own inputs keeps the form readable by the
      validator. */
  lemma ChangeKeepsReadable(f: FormData, errors: Errors, name: string, value: string)
    requires Readable(f)
    requires '.' in name ==> Text.Split(name, '.')[0] == "shippingAddress"
    ensures Readable(HandleInputChange(f, errors, name, value).0)
  {
    if '.' in name {
      Text.SplitHasTwo(name, '.');
    }
  }

  // ---------------------------------------------------------------------
  // validateForm

  /** `/^\d{2}\/\d{2}$/`: shape only, the month is not checked. */
  predicate ExpiryShape(s: string) {
    |s| == 5 && Text.IsDigit(s[0]) && Text.IsDigit(s[1]) && s[2] == '/' && Text.IsDigit(s[3]) && Text.IsDigit(s[4])
  }

  /** Every rule `validateForm` applies is met. */
  predicate Complete(f: FormData)
    requires "shippingAddress" in f
  {
    AddressPart(f, "street") != "" && AddressPart(f, "city") != "" && AddressPart(f, "state") != ""
    && AddressPart(f, "zipCode") != "" && AddressPart(f, "country") != ""
    && |Text.RemoveSpaces(Top(f, "cardNumber"))| == 16
    && Top(f, "cardName") != ""
    && ExpiryShape(Top(f, "cardExpiry"))
    && |Top(f, "cardCvv")| == 3
  }

  /** The names `validateForm` can record an error under. */
  const CheckedNames: set<string> :=
    {"shippingAddress.street", "shippingAddress.city", "shippingAddress.state", "shippingAddress.zipCode",
     "shippingAddress.country", "cardNumber", "cardName", "cardExpiry", "cardCvv"}

  /** Whether the check for input `k` fails. */
  predicate Fails(f: FormData, k: string)
    requires "shippingAddress" in f
  {
    if k == "shippingAddress.street" then AddressPart(f, "street") == ""
    else if k == "shippingAddress.city" then AddressPart(f, "city") == ""
    else if k == "shippingAddress.state" then AddressPart(f, "state") == ""
    else if k == "shippingAddress.zipCode" then AddressPart(f, "zipCode") == ""
    else if k == "shippingAddress.country" then AddressPart(f, "country") == ""
    else if k == "cardNumber" then Top(f, k) == "" || |Text.RemoveSpaces(Top(f, k))| != 16
    else if k == "cardName" then Top(f, k) == ""
    else if k == "cardExpiry" then Top(f, k) == "" || !ExpiryShape(Top(f, k))
    else if k == "cardCvv" then Top(f, k) == "" || |Top(f, k)| != 3
    else false
  }

  /** The message recorded for input `k`: "required" for an empty field,
      the format rule otherwise. */
  function Message(f: FormData, k: string): (msg: string)
    ensures msg != ""
  {
    if k == "shippingAddress.street" then "Street address is required"
    else if k == "shippingAddress.city" then "City is required"
    else if k == "shippingAddress.state" then "State is required"
    else if k == "shippingAddress.zipCode" then "ZIP code is required"
    else if k == "shippingAddress.country" then "Country is required"
    else if k == "cardNumber" then
      if Top(f, k) == "" then "Card number is required" else "Card number must be 16 digits"
    else if k == "cardName" then "Cardholder name is required"
    else if k == "cardExpiry" then
      if Top(f, k) == "" then "Expiry date is required" else "Expiry date must be in MM/YY format"
    else if Top(f, k) == "" then "CVV is required" else "CVV must be 3 digits"
  }

  /** `validateForm`: the recorded errors, and whether there were none. */
  function ValidateForm(f: FormData): (result: (Errors, bool))
    requires Readable(f)
    ensures result.1 <==> result.0 == map[]
    ensures result.1 <==> Complete(f)
    ensures result.0.Keys <= CheckedNames
    ensures forall k :: k in CheckedNames ==> (k in result.0 <==> Fails(f, k))
    ensures forall k :: k in result.0 ==> result.0[k] == Message(f, k)
  {
    var errors := map k | k in CheckedNames && Fails(f, k) :: Message(f, k);
    if Complete(f) then
      assert errors == map[];
      (errors, |errors| == 0)
    else
      var k :| k in CheckedNames && Fails(f, k);
      assert k in errors;
      (errors, |errors| == 0)
  }

  /** Input by input: an error is recorded exactly when its rule fails, and
      it is never blank; the card number's message says which rule. */
  lemma ValidateFormByField(f: FormData)
    requires Readable(f)
    ensures var e := ValidateForm(f).0;
            (forall k :: k in e ==> e[k] != "")
            && ("shippingAddress.street" in e <==> AddressPart(f, "street") == "")
            && ("shippingAddress.city" in e <==> AddressPart(f, "city") == "")
            && ("shippingAddress.state" in e <==> AddressPart(f, "state") == "")
            && ("shippingAddress.zipCode" in e <==> AddressPart(f, "zipCode") == "")
            && ("shippingAddress.country" in e <==> AddressPart(f, "country") == "")
            && ("cardNumber" in e <==> |Text.RemoveSpaces(Top(f, "cardNumber"))| != 16)
            && ("cardNumber" in e ==>
                  e["cardNumber"] == if Top(f, "cardNumber") == "" then "Card number is required"
                                     else "Card number must be 16 digits")
            && ("cardName" in e <==> Top(f, "cardName") == "")
            && ("cardExpiry" in e <==> !ExpiryShape(Top(f, "cardExpiry")))
            && ("cardCvv" in e <==> |Top(f, "cardCvv")| != 3)
  {
    var e := ValidateForm(f).0;
    assert "cardNumber" in CheckedNames && "cardName" in CheckedNames;
    assert "cardExpiry" in CheckedNames && "cardCvv" in CheckedNames;
    assert "shippingAddress.street" in CheckedNames && "shippingAddress.city" in CheckedNames;
    assert "shippingAddress.state" in CheckedNames && "shippingAddress.zipCode" in CheckedNames;
    assert "shippingAddress.country" in CheckedNames;
  }

  // ---------------------------------------------------------------------
  // formatCardNumber

  function Min(a: int, b: int): int {
    if a < b then a else b
  }

  /** `v.match(/\d{4,16}/g)[0]` on a string of digits: its first sixteen
      digits once it has four, nothing otherwise. */
  function FirstRun(v: string): (m: string)
    ensures |v| < 4 ==> m == []
    ensures |v| >= 4 ==> m == v[..Min(16, |v|)] && 4 <= |m| <= 16
  {
    if |v| >= 4 then v[..Min(16, |v|)] else []
  }

  /** The pieces `match.substring(i, i + 4)` for i = 0, 4, 8, ... */
  function Chunks(m: string): (parts: seq<string>)
    ensures m != [] ==> |parts| >= 1
    ensures m == [] ==> parts == []
  {
    if m == [] then [] else if |m| <= 4 then [m] else [m[..4]] + Chunks(m[4..])
  }

  /** What `formatCardNumber` returns. */
  function CardNumberText(value: string): string {
    var v := Text.Digits(value);
    var m := FirstRun(v);
    if m == [] then v else Text.Join(Chunks(m), ' ')
  }

  lemma ChunksStep(m: string, i: int)
    requires 0 <= i < |m|
    ensures Chunks(m[i..]) == [m[i..Min(i + 4, |m|)]] + Chunks(m[Min(i + 4, |m|)..])
  {
    var r := m[i..];
    if |r| > 4 {
      assert Chunks(r) == [r[..4]] + Chunks(r[4..]);
      assert r[..4] == m[i..i + 4] && r[4..] == m[i + 4..];
    } else {
      assert Chunks(r) == [r];
      assert m[i..Min(i + 4, |m|)] == r;
      assert m[Min(i + 4, |m|)..] == [];
    }
  }

  /** `formatCardNumber`: digits only, grouped by four with single spaces
      once there are four of them, at most sixteen kept. */
  method FormatCardNumber(value: string) returns (formatted: string)
    ensures formatted == CardNumberText(value)
  {
    var v := Text.Digits(value);
    var m := FirstRun(v);
    var parts: seq<string> := [];
    var i := 0;
    while i < |m|
      invariant 0 <= i
      invariant parts + Chunks(m[Min(i, |m|)..]) == Chunks(m)
      decreases |m| - i
    {
      ChunksStep(m, i);
      parts := parts + [m[i..Min(i + 4, |m|)]];
      i := i + 4;
    }
    assert m[Min(i, |m|)..] == [];
    assert parts == Chunks(m);
    if |parts| > 0 {
      formatted := Text.Join(parts, ' ');
    } else {
      formatted := v;
    }
  }

  predicate AllDigits(s: string) {
    forall i :: 0 <= i < |s| ==> Text.IsDigit(s[i])
  }

  /** A number longer than one group starts with a group of four. */
  lemma ChunksLong(m: string)
    requires |m| > 4
    ensures Chunks(m) == [m[..4]] + Chunks(m[4..])
  {
  }

  /** One group, a space, then the grouping of the rest. */
  lemma JoinChunksStep(m: string)
    requires |m| > 4
    ensures Text.Join(Chunks(m), ' ') == m[..4] + [' '] + Text.Join(Chunks(m[4..]), ' ')
    ensures m == m[..4] + m[4..]
  {
    ChunksLong(m);
    Text.JoinCons(m[..4], Chunks(m[4..]), ' ');
  }

  lemma {:induction false} GroupedRemoveSpaces(m: string)
    requires m != [] && AllDigits(m)
    ensures Text.RemoveSpaces(Text.Join(Chunks(m), ' ')) == m
    decreases |m|
  {
    if |m| <= 4 {
      Text.RemoveSpacesNone(m);
    } else {
      var head, rest := m[..4], m[4..];
      JoinChunksStep(m);
      GroupedRemoveSpaces(rest);
      Text.RemoveSpacesNone(head);
      Text.RemoveSpacesConcat(head + [' '], Text.Join(Chunks(rest), ' '));
      Text.RemoveSpacesConcat(head, [' ']);
    }
  }

  lemma {:induction false} GroupedDigits(m: string)
    requires m != [] && AllDigits(m)
    ensures Text.Digits(Text.Join(Chunks(m), ' ')) == m
    decreases |m|
  {
    if |m| <= 4 {
      Text.DigitsOfDigits(m);
    } else {
      var head, rest := m[..4], m[4..];
      JoinChunksStep(m);
      GroupedDigits(rest);
      Text.DigitsOfDigits(head);
      Text.DigitsConcat(head + [' '], Text.Join(Chunks(rest), ' '));
      Text.DigitsConcat(head, [' ']);
    }
  }

  lemma {:induction false} GroupedLength(m: string)
    requires m != []
    ensures |Text.Join(Chunks(m), ' ')| == |m| + (|m| - 1) / 4
    decreases |m|
  {
    if |m| > 4 {
      JoinChunksStep(m);
      GroupedLength(m[4..]);
    }
  }

  /** Fewer than four digits come back as typed (without the rest); from
      four on, removing the spaces gives back the first sixteen digits and
      the text fits the input's 19 characters. */
  lemma CardNumberShape(value: string)
    ensures var v := Text.Digits(value);
            var r := CardNumberText(value);
            (|v| < 4 ==> r == v)
            && (|v| >= 4 ==> Text.RemoveSpaces(r) == v[..Min(16, |v|)] && Text.Digits(r) == v[..Min(16, |v|)]
                             && |r| <= 19)
  {
    var v := Text.Digits(value);
    if |v| >= 4 {
      var m := FirstRun(v);
      GroupedRemoveSpaces(m);
      GroupedDigits(m);
      GroupedLength(m);
    }
  }

  /** Formatting what was formatted changes nothing. */
  lemma CardNumberIdempotent(value: string)
    ensures CardNumberText(CardNumberText(value)) == CardNumberText(value)
  {
    var v := Text.Digits(value);
    CardNumberShape(value);
    if |v| < 4 {
      Text.DigitsOfDigits(v);
    } else {
      var m := FirstRun(v);
      assert Text.Digits(CardNumberText(value)) == m;
      assert FirstRun(m) == m[..|m|] == m;
    }
  }

  /** The formatted number passes the sixteen-digit rule exactly when at
      least sixteen digits were typed. */
  lemma CardNumberPassesIff(value: string)
    ensures |Text.RemoveSpaces(CardNumberText(value))| == 16 <==> |Text.Digits(value)| >= 16
  {
    var v := Text.Digits(value);
    CardNumberShape(value);
    if |v| < 4 {
      Text.RemoveSpacesNone(v);
    }
  }

  // ---------------------------------------------------------------------
  // formatExpiry

  /** `formatExpiry`: digits only; from two digits on, the first two, a
      slash, and the next (at most) two. */
  function FormatExpiry(value: string): (r: string)
    ensures |r| <= 5
  {
    var v := Text.Digits(value);
    if |v| >= 2 then v[..2] + "/" + v[2..Min(4, |v|)] else v
  }

  /** The formatted expiry keeps the first four digits typed, and only them. */
  lemma ExpiryDigits(value: string)
    ensures Text.Digits(FormatExpiry(value)) == Text.Digits(value)[..Min(4, |Text.Digits(value)|)]
  {
    var v := Text.Digits(value);
    if |v| >= 2 {
      var head, tail := v[..2], v[2..Min(4, |v|)];
      assert FormatExpiry(value) == head + "/" + tail;
      assert Text.Digits("/") == [] by {
        assert !Text.IsDigit('/');
        assert "/"[1..] == [];
      }
      calc {
        Text.Digits(head + "/" + tail);
        { Text.DigitsConcat(head + "/", tail); }
        Text.Digits(head + "/") + Text.Digits(tail);
        { Text.DigitsConcat(head, "/"); }
        Text.Digits(head) + Text.Digits(tail);
        { Text.DigitsOfDigits(head); Text.DigitsOfDigits(tail); }
        head + tail;
        { assert head + tail == v[..Min(4, |v|)]; }
        v[..Min(4, |v|)];
      }
    } else {
      Text.DigitsOfDigits(v);
      assert v[..Min(4, |v|)] == v;
    }
  }

  /** The formatted expiry has the `MM/YY` shape exactly when four digits
      were typed. */
  lemma ExpiryShapeIff(value: string)
    ensures ExpiryShape(FormatExpiry(value)) <==> |Text.Digits(value)| >= 4
  {
    var v := Text.Digits(value);
    if |v| >= 4 {
      var r := FormatExpiry(value);
      assert r == v[..2] + "/" + v[2..4];
      assert r[0] == v[0] && r[1] == v[1] && r[3] == v[2] && r[4] == v[3];
    }
  }

  /** Formatting an already formatted expiry changes nothing. */
  lemma ExpiryIdempotent(value: string)
    ensures FormatExpiry(FormatExpiry(value)) == FormatExpiry(value)
  {
    var v := Text.Digits(value);
    var r := FormatExpiry(value);
    ExpiryDigits(value);
    var w := Text.Digits(r);
    assert w == v[..Min(4, |v|)];
    if |v| >= 2 {
      assert w[..2] == v[..2];
      assert w[2..Min(4, |w|)] == v[2..Min(4, |v|)];
    }
  }

  // ---------------------------------------------------------------------
  // The card inputs

  /** The card-number input's handler stores the formatted text; unlike
      `handleInputChange` it leaves the field's error shown. */
  function OnCardNumberInput(f: FormData, raw: string): FormData {
    f["cardNumber" := Plain(CardNumberText(raw))]
  }

  /** The expiry input's handler, likewise. */
  function OnExpiryInput(f: FormData, raw: string): FormData {
    f["cardExpiry" := Plain(FormatExpiry(raw))]
  }

  /** Through the formatting inputs, the card rules of `validateForm` hold
      exactly when sixteen card digits and four expiry digits were typed. */
  lemma FormattedCardFieldsValidate(f: FormData, rawCard: string, rawExpiry: string)
    requires Readable(f)
    ensures var g := OnExpiryInput(OnCardNumberInput(f, rawCard), rawExpiry);
            Readable(g)
            && ("cardNumber" !in ValidateForm(g).0 <==> |Text.Digits(rawCard)| >= 16)
            && ("cardExpiry" !in ValidateForm(g).0 <==> |Text.Digits(rawExpiry)| >= 4)
  {
    var g := OnExpiryInput(OnCardNumberInput(f, rawCard), rawExpiry);
    assert Readable(g);
    assert Top(g, "cardNumber") == CardNumberText(rawCard);
    assert Top(g, "cardExpiry") == FormatExpiry(rawExpiry);
    ValidateFormByField(g);
    CardNumberPassesIff(rawCard);
    ExpiryShapeIff(rawExpiry);
  }
}
