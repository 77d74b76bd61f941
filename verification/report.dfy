/** The report shown for an enrichment result (the formatting halves of
    `enrich_company_data` and `enrich_contact_data`,
    apollo_enrichment_app.py:163-178 and 205-220). Python's `str()` of a
    JSON value is the parameter `render`. */
module Report {
  import opened Text
  import opened Wrappers
  import opened JsonValue
  import opened Client

  /** The exceptions the formatting code can raise on unexpected payloads;
      the entry points do not catch them. */
  datatype PyException = AttributeError | KeyError | TypeError

  /** What an entry point hands back to the interface: text, or an exception
      that escapes. */
  datatype Display = Shown(text: string) | Raised(exception: PyException)

  /** One line of the report: a plain `data.get(key, 'N/A')`, several such
      lookups joined by a separator, the nested organisation name of a
      contact, or the first phone number of a contact. */
  datatype FieldSpec =
    | Plain(caption: string, key: string)
    | Joined(caption: string, keys: seq<string>, separator: string)
    | OrganisationName(caption: string)
    | FirstPhone(caption: string)

  const Fallback: string := "N/A"

  /** The company report lines, in order. */
  const CompanyFields: seq<FieldSpec> := [
    Plain("Name", "name"),
    Plain("Domain", "domain"),
    Plain("Website", "website_url"),
    Plain("LinkedIn", "linkedin_url"),
    Plain("Industry", "industry"),
    Plain("Company Size", "estimated_num_employees"),
    Joined("Location", ["city", "state", "country"], ", "),
    Plain("Founded", "founded_year"),
    Plain("Description", "short_description")
  ]

  /** The contact report lines, in order. */
  const ContactFields: seq<FieldSpec> := [
    Joined("Name", ["first_name", "last_name"], " "),
    Plain("Email", "email"),
    Plain("LinkedIn", "linkedin_url"),
    Plain("Title", "title"),
    OrganisationName("Company"),
    Joined("Location", ["city", "state", "country"], ", "),
    FirstPhone("Phone"),
    Plain("Twitter", "twitter_url"),
    Plain("Bio", "headline")
  ]

  function Fields(q: Lookup): seq<FieldSpec> {
    match q
    case CompanyLookup(_, _, _, _) => CompanyFields
    case ContactLookup(_, _, _, _) => ContactFields
  }

  function Heading(q: Lookup): string {
    match q
    case CompanyLookup(_, _, _, _) => "\U{1F4CA} **Enriched Company Data:**"
    case ContactLookup(_, _, _, _) => "\U{1F464} **Enriched Contact Data:**"
  }

  const SuccessMark: string := "\U{2705} "
  const FailureMark: string := "\U{274C} "

  /** `data.get(key, 'N/A')` rendered: the fallback stands only for a missing
      key, never for a present value, however falsy. */
  function Get(data: map<string, Json>, key: string, render: Json -> string): (r: string)
    ensures key !in data ==> r == Fallback
    ensures key in data ==> r == render(data[key])
  {
    if key in data then render(data[key]) else Fallback
  }

  /** The lookups of `keys`, joined by `separator`. */
  function JoinGets(data: map<string, Json>, keys: seq<string>, separator: string, render: Json -> string): string
  {
    if keys == [] then ""
    else if |keys| == 1 then Get(data, keys[0], render)
    else Get(data, keys[0], render) + separator + JoinGets(data, keys[1..], separator, render)
  }

  /** The value shown on one line, or the exception computing it raises. */
  function FieldValue(f: FieldSpec, data: map<string, Json>, render: Json -> string): (r: Result<string, PyException>)
    ensures (f.Plain? || f.Joined?) ==> r.Ok?
    ensures r.Err? ==> f.OrganisationName? || f.FirstPhone?
  {
    match f
    case Plain(_, key) => Ok(Get(data, key, render))
    case Joined(_, keys, separator) => Ok(JoinGets(data, keys, separator, render))
    case OrganisationName(_) =>
      if "organization" in data && Truthy(data["organization"]) then
        (match data["organization"]
         case Object(organisation) => Ok(Get(organisation, "name", render))
         case _ => Err(AttributeError))
      else Ok(Fallback)
    case FirstPhone(_) =>
      if "phone_numbers" in data && Truthy(data["phone_numbers"]) then
        (match data["phone_numbers"]
         case Array(numbers) =>
           (match numbers[0]
            case Object(first) => Ok(Get(first, "raw_number", render))
            case _ => Err(AttributeError))
         case Str(_) => Err(AttributeError)
         case Object(_) => Err(KeyError)
         case _ => Err(TypeError))
      else Ok(Fallback)
  }

  function Bullet(caption: string, value: string): string {
    "\U{2022} **" + caption + ":** " + value
  }

  /** Line `i` is the first of `fields` whose value raises an exception. */
  predicate FirstRaising(fields: seq<FieldSpec>, data: map<string, Json>, render: Json -> string, i: int) {
    && 0 <= i < |fields|
    && FieldValue(fields[i], data, render).Err?
    && forall j :: 0 <= j < i ==> FieldValue(fields[j], data, render).Ok?
  }

  /** The bullet lines of `fields` in order, or the exception of the first
      line that raises one. */
  function Bullets(fields: seq<FieldSpec>, data: map<string, Json>, render: Json -> string): (r: Result<seq<string>, PyException>)
    ensures r.Ok? <==> forall i :: 0 <= i < |fields| ==> FieldValue(fields[i], data, render).Ok?
    ensures r.Ok? ==> |r.value| == |fields| && forall i :: 0 <= i < |fields| ==>
      r.value[i] == Bullet(fields[i].caption, FieldValue(fields[i], data, render).value)
    ensures r.Err? ==> exists i :: FirstRaising(fields, data, render, i) && FieldValue(fields[i], data, render) == Err(r.error)
  {
    if fields == [] then Ok([])
    else
      match FieldValue(fields[0], data, render)
      case Err(e) => Err(e)
      case Ok(value) =>
        match Bullets(fields[1..], data, render)
        case Err(e) => Err(e)
        case Ok(rest) => Ok([Bullet(fields[0].caption, value)] + rest)
  }

  /** The text shown for a result: on success the message, a heading and one
      bullet line per field; on error the message after a failure mark. */
  function Format(q: Lookup, result: EnrichResult, render: Json -> string): (d: Display)
    ensures result.status == Error ==> d == Shown(FailureMark + result.message)
    ensures d.Raised? <==>
      (&& result.status == Success
       && (!result.data.Object? || exists i :: FirstRaising(Fields(q), result.data.fields, render, i)))
  {
    match result.status
    case Error => Shown(FailureMark + result.message)
    case Success =>
      match result.data
      case Object(data) =>
        (match Bullets(Fields(q), data, render)
         case Ok(lines) => Shown(Unlines([SuccessMark + result.message, "", Heading(q)] + lines))
         case Err(e) => Raised(e))
      case _ => Raised(AttributeError)
  }

  /** Every company line is a plain lookup or a join of lookups, so the
      company report never raises: a successful result whose data is an
      object is always shown. */
  lemma CompanyReportNeverRaises(q: Lookup, result: EnrichResult, render: Json -> string)
    requires q.CompanyLookup? && result.status == Success && result.data.Object?
    ensures Bullets(CompanyFields, result.data.fields, render).Ok?
    ensures Format(q, result, render).Shown?
  {
    assert forall i :: 0 <= i < |CompanyFields| ==> CompanyFields[i].Plain? || CompanyFields[i].Joined?;
  }

  /** An error result is shown as its message after the failure mark. */
  lemma FormatError(q: Lookup, result: EnrichResult, render: Json -> string)
    requires result.status == Error
    ensures Format(q, result, render) == Shown(FailureMark + result.message)
  {
  }

  /** No value that field `f` shows renders with a newline: its key's
      value, the values of its joined keys, the organisation's `name` or the
      first phone number's `raw_number`. Values the field never shows are not
      constrained. */
  predicate FieldSingleLine(f: FieldSpec, data: map<string, Json>, render: Json -> string) {
    match f
    case Plain(_, key) => key in data ==> NoNewline(render(data[key]))
    case Joined(_, keys, _) => KeysSingleLine(data, keys, render)
    case OrganisationName(_) =>
      "organization" in data && data["organization"].Object? && "name" in data["organization"].fields ==>
        NoNewline(render(data["organization"].fields["name"]))
    case FirstPhone(_) =>
      && "phone_numbers" in data && data["phone_numbers"].Array? && data["phone_numbers"].items != []
      && data["phone_numbers"].items[0].Object? && "raw_number" in data["phone_numbers"].items[0].fields ==>
        NoNewline(render(data["phone_numbers"].items[0].fields["raw_number"]))
  }

  /** No value of `keys` present in `data` renders with a newline. */
  predicate KeysSingleLine(data: map<string, Json>, keys: seq<string>, render: Json -> string) {
    forall k :: 0 <= k < |keys| && keys[k] in data ==> NoNewline(render(data[keys[k]]))
  }

  /** No value that any of `fields` shows renders with a newline. */
  predicate DataSingleLine(fields: seq<FieldSpec>, data: map<string, Json>, render: Json -> string) {
    forall i :: 0 <= i < |fields| ==> FieldSingleLine(fields[i], data, render)
  }

  lemma {:induction false} JoinGetsNoNewline(data: map<string, Json>, keys: seq<string>, separator: string, render: Json -> string)
    requires KeysSingleLine(data, keys, render)
    requires NoNewline(separator)
    ensures NoNewline(JoinGets(data, keys, separator, render))
    decreases |keys|
  {
    if |keys| > 1 {
      assert KeysSingleLine(data, keys[1..], render) by {
        forall k | 0 <= k < |keys[1..]| && keys[1..][k] in data ensures NoNewline(render(data[keys[1..][k]])) {
          assert keys[1..][k] == keys[k + 1];
        }
      }
      JoinGetsNoNewline(data, keys[1..], separator, render);
      var head := Get(data, keys[0], render);
      assert NoNewline(head) by {
        if keys[0] in data { assert NoNewline(render(data[keys[0]])); }
      }
    } else if |keys| == 1 {
      if keys[0] in data { assert NoNewline(render(data[keys[0]])); }
    }
  }

  /** No field value contains a newline when no value it renders does. */
  lemma FieldValueNoNewline(f: FieldSpec, data: map<string, Json>, render: Json -> string)
    requires FieldSingleLine(f, data, render)
    requires FieldValue(f, data, render).Ok?
    requires f.Joined? ==> NoNewline(f.separator)
    ensures NoNewline(FieldValue(f, data, render).value)
  {
    match f
    case Plain(_, key) =>
      if key in data { assert NoNewline(render(data[key])); }
    case Joined(_, keys, separator) =>
      JoinGetsNoNewline(data, keys, separator, render);
    case OrganisationName(_) =>
      if "organization" in data && Truthy(data["organization"]) {
        var organisation := data["organization"].fields;
        if "name" in organisation { assert NoNewline(render(organisation["name"])); }
      }
    case FirstPhone(_) =>
      if "phone_numbers" in data && Truthy(data["phone_numbers"]) {
        var first := data["phone_numbers"].items[0].fields;
        if "raw_number" in first { assert NoNewline(render(first["raw_number"])); }
      }
  }

  /** Every caption and separator of `fields` is a single line. */
  predicate SingleLineLayout(fields: seq<FieldSpec>) {
    forall i :: 0 <= i < |fields| ==>
      NoNewline(Bullet(fields[i].caption, "")) && (fields[i].Joined? ==> NoNewline(fields[i].separator))
  }

  lemma BulletsSingleLine(fields: seq<FieldSpec>)
    requires forall i :: 0 <= i < |fields| ==> NoNewline(fields[i].caption)
    requires forall i :: 0 <= i < |fields| ==> fields[i].Joined? ==> NoNewline(fields[i].separator)
    ensures SingleLineLayout(fields)
  {
  }

  lemma CompanyLayout()
    ensures SingleLineLayout(CompanyFields)
  {
    assert forall i :: 0 <= i < |CompanyFields| ==> NoNewline(CompanyFields[i].caption);
    assert forall i :: 0 <= i < |CompanyFields| ==> CompanyFields[i].Joined? ==> NoNewline(CompanyFields[i].separator);
    BulletsSingleLine(CompanyFields);
  }

  lemma ContactLayout()
    ensures SingleLineLayout(ContactFields)
  {
    assert forall i :: 0 <= i < |ContactFields| ==> NoNewline(ContactFields[i].caption);
    assert forall i :: 0 <= i < |ContactFields| ==> ContactFields[i].Joined? ==> NoNewline(ContactFields[i].separator);
    BulletsSingleLine(ContactFields);
  }

  /** Every caption, separator and heading of both reports is a single line. */
  lemma LayoutNoNewline(q: Lookup)
    ensures SingleLineLayout(Fields(q))
    ensures NoNewline(Heading(q)) && NoNewline(SuccessMark)
  {
    if q.CompanyLookup? {
      CompanyLayout();
    } else {
      ContactLayout();
    }
  }

  /** Bullet lines are single lines when their captions, separators and
      rendered values are. */
  lemma BulletsNoNewline(fields: seq<FieldSpec>, data: map<string, Json>, render: Json -> string)
    requires SingleLineLayout(fields)
    requires DataSingleLine(fields, data, render)
    requires Bullets(fields, data, render).Ok?
    ensures forall i :: 0 <= i < |fields| ==> NoNewline(Bullets(fields, data, render).value[i])
  {
    var bullets := Bullets(fields, data, render).value;
    forall i | 0 <= i < |fields| ensures NoNewline(bullets[i]) {
      BulletNoNewline(fields[i], data, render);
    }
  }

  lemma BulletNoNewline(f: FieldSpec, data: map<string, Json>, render: Json -> string)
    requires NoNewline(Bullet(f.caption, "")) && (f.Joined? ==> NoNewline(f.separator))
    requires FieldSingleLine(f, data, render)
    requires FieldValue(f, data, render).Ok?
    ensures NoNewline(Bullet(f.caption, FieldValue(f, data, render).value))
  {
    FieldValueNoNewline(f, data, render);
    var value := FieldValue(f, data, render).value;
    assert Bullet(f.caption, value) == Bullet(f.caption, "") + value;
  }

  /** The text shown for a successful result, read back line by line, is the
      success line, an empty line, the heading and then exactly one bullet
      per field of the fixed list, in order, provided neither the message nor
      any value of the data the report renders contains a newline. */
  lemma FormatLines(q: Lookup, result: EnrichResult, render: Json -> string)
    requires result.status == Success && Format(q, result, render).Shown?
    requires NoNewline(result.message)
    requires result.data.Object? ==> DataSingleLine(Fields(q), result.data.fields, render)
    ensures result.data.Object?
    ensures var bullets := Bullets(Fields(q), result.data.fields, render);
      && bullets.Ok?
      && Lines(Format(q, result, render).text) == [SuccessMark + result.message, "", Heading(q)] + bullets.value
    ensures |Lines(Format(q, result, render).text)| == 3 + |Fields(q)|
  {
    var fields := Fields(q);
    var data := result.data.fields;
    var bullets := Bullets(fields, data, render).value;
    var ls := [SuccessMark + result.message, "", Heading(q)] + bullets;
    LayoutNoNewline(q);
    BulletsNoNewline(fields, data, render);
    assert forall j :: 0 <= j < |ls| ==> NoNewline(ls[j]) by {
      forall j | 0 <= j < |ls| ensures NoNewline(ls[j]) {
        if j >= 3 { assert ls[j] == bullets[j - 3]; }
      }
    }
    LinesUnlines(ls);
  }

  /** Line `3 + i` of a shown success report is the bullet of field `i`. */
  lemma BulletLine(q: Lookup, result: EnrichResult, render: Json -> string, i: int)
    requires result.status == Success && Format(q, result, render).Shown?
    requires NoNewline(result.message)
    requires result.data.Object? ==> DataSingleLine(Fields(q), result.data.fields, render)
    requires 0 <= i < |Fields(q)|
    ensures result.data.Object?
    ensures var lines := Lines(Format(q, result, render).text);
      && |lines| == 3 + |Fields(q)|
      && FieldValue(Fields(q)[i], result.data.fields, render).Ok?
      && lines[3 + i] == Bullet(Fields(q)[i].caption, FieldValue(Fields(q)[i], result.data.fields, render).value)
  {
    FormatLines(q, result, render);
    var bullets := Bullets(Fields(q), result.data.fields, render).value;
    var lines := Lines(Format(q, result, render).text);
    assert lines[3 + i] == bullets[i];
  }

  /** A plain line of a shown success report shows the rendered value
      whenever its key is present, however falsy that value is (`None`, `""`,
      `0`, `False`), and shows the fallback only when the key is absent. */
  lemma PlainLine(q: Lookup, result: EnrichResult, render: Json -> string, i: int)
    requires result.status == Success && Format(q, result, render).Shown?
    requires NoNewline(result.message)
    requires result.data.Object? ==> DataSingleLine(Fields(q), result.data.fields, render)
    requires 0 <= i < |Fields(q)| && Fields(q)[i].Plain?
    ensures result.data.Object?
    ensures var lines := Lines(Format(q, result, render).text);
      var data := result.data.fields;
      var f := Fields(q)[i];
      && |lines| == 3 + |Fields(q)|
      && (f.key in data ==> lines[3 + i] == Bullet(f.caption, render(data[f.key])))
      && (f.key !in data ==> lines[3 + i] == Bullet(f.caption, Fallback))
  {
    BulletLine(q, result, render, i);
  }

  /** The contact's company: the fallback when `organization` is missing or
      falsy (`None`, `{}`, `""`, `0`, `[]`, `false`), the organisation's name
      (or the fallback) when it is a non-empty dict, and an exception for any
      other truthy value. */
  lemma OrganisationLine(data: map<string, Json>, render: Json -> string)
    ensures var v := FieldValue(OrganisationName("Company"), data, render);
      && ("organization" !in data || !Truthy(data["organization"]) ==> v == Ok(Fallback))
      && ("organization" in data && data["organization"].Object? && Truthy(data["organization"]) ==>
            v == Ok(Get(data["organization"].fields, "name", render)))
      && (v.Err? <==> "organization" in data && Truthy(data["organization"]) && !data["organization"].Object?)
  {
  }

  /** The contact's phone: the fallback when `phone_numbers` is missing or
      falsy, the first entry's `raw_number` (or the fallback) when it is a
      non-empty list whose first entry is a dict, and an exception otherwise. */
  lemma PhoneLine(data: map<string, Json>, render: Json -> string)
    ensures var v := FieldValue(FirstPhone("Phone"), data, render);
      && ("phone_numbers" !in data || !Truthy(data["phone_numbers"]) ==> v == Ok(Fallback))
      && ("phone_numbers" in data && data["phone_numbers"].Array? && data["phone_numbers"].items != []
          && data["phone_numbers"].items[0].Object? ==>
            v == Ok(Get(data["phone_numbers"].items[0].fields, "raw_number", render)))
      && (v.Ok? && v != Ok(Fallback) ==>
            && "phone_numbers" in data && data["phone_numbers"].Array?
            && data["phone_numbers"].items != [] && data["phone_numbers"].items[0].Object?
            && "raw_number" in data["phone_numbers"].items[0].fields)
      && (v.Err? <==>
            (&& "phone_numbers" in data && Truthy(data["phone_numbers"])
             && !(data["phone_numbers"].Array? && data["phone_numbers"].items[0].Object?)))
  {
  }

    /** Two lookups joined: the first, the separator, the second. */
  lemma {:induction false} JoinTwo(data: map<string, Json>, a: string, b: string, separator: string, render: Json -> string)
    ensures JoinGets(data, [a, b], separator, render) == Get(data, a, render) + separator + Get(data, b, render)
  {
    assert [a, b][1..] == [b];
  }

  /** Three lookups joined, the separator between each neighbouring pair. */
  lemma {:induction false} JoinThree(data: map<string, Json>, a: string, b: string, c: string, separator: string,
                                     render: Json -> string)
    ensures JoinGets(data, [a, b, c], separator, render)
      == Get(data, a, render) + separator + Get(data, b, render) + separator + Get(data, c, render)
  {
    assert [a, b, c][1..] == [b, c];
    JoinTwo(data, b, c, separator, render);
    var x, y, z := Get(data, a, render), Get(data, b, render), Get(data, c, render);
    assert x + separator + (y + separator + z) == x + separator + y + separator + z;
  }

  /** For any data, the location line shows city, state and country joined
      by `", "`, and the contact's name line shows the first and last names
      joined by a space, each part falling back on its own. */
  lemma JoinedLines(data: map<string, Json>, render: Json -> string)
    ensures FieldValue(CompanyFields[6], data, render)
      == Ok(Get(data, "city", render) + ", " + Get(data, "state", render) + ", " + Get(data, "country", render))
    ensures FieldValue(ContactFields[5], data, render)
      == Ok(Get(data, "city", render) + ", " + Get(data, "state", render) + ", " + Get(data, "country", render))
    ensures FieldValue(ContactFields[0], data, render)
      == Ok(Get(data, "first_name", render) + " " + Get(data, "last_name", render))
  {
    JoinThree(data, "city", "state", "country", ", ", render);
    JoinTwo(data, "first_name", "last_name", " ", render);
  }

/** With no data at all every single lookup falls back, and so does each
      part of a joined line. */
  lemma EmptyDataFallsBack(q: Lookup, render: Json -> string)
    ensures forall i :: 0 <= i < |Fields(q)| && !Fields(q)[i].Joined? ==>
      FieldValue(Fields(q)[i], map[], render) == Ok(Fallback)
    ensures FieldValue(Joined("Location", ["city", "state", "country"], ", "), map[], render) == Ok("N/A, N/A, N/A")
    ensures FieldValue(Joined("Name", ["first_name", "last_name"], " "), map[], render) == Ok("N/A N/A")
  {
    var keys := ["city", "state", "country"];
    assert keys[1..] == ["state", "country"] && keys[1..][1..] == ["country"];
    assert JoinGets(map[], ["country"], ", ", render) == Fallback;
    assert JoinGets(map[], ["state", "country"], ", ", render) == Fallback + ", " + Fallback;
    assert JoinGets(map[], keys, ", ", render) == Fallback + ", " + (Fallback + ", " + Fallback);
    var names := ["first_name", "last_name"];
    assert names[1..] == ["last_name"];
    assert JoinGets(map[], ["last_name"], " ", render) == Fallback;
    assert JoinGets(map[], names, " ", render) == Fallback + " " + Fallback;
    assert Fallback + ", " + (Fallback + ", " + Fallback) == "N/A, N/A, N/A";
    assert Fallback + " " + Fallback == "N/A N/A";
  }
}
