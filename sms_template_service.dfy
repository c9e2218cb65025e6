/** The SMS text templates: a fixed sample template per event type and
    operator, and `{{key}}` placeholder substitution. */
module SmsTemplates {
  import opened Strings

  /** `getTemplate`. */
  function GetTemplate(eventType: string, operator: string): (t: string)
    ensures |t| == |"sample"| + |eventType| + 1 + |operator| + |" template"|
  {
    "sample" + eventType + ":" + operator + " template"
  }

  /** The placeholder a variable fills. */
  function Placeholder(key: string): (p: string)
    ensures p != [] && p[0] == '{'
  {
    "{{" + key + "}}"
  }

  /** The specification of `populateTemplate`: the variables are applied in
      entry order, each replacing every occurrence of its placeholder in the
      text the earlier ones left. */
  function Populate(template: string, variables: seq<(string, string)>): string
    decreases |variables|
  {
    if variables == [] then template
    else Populate(ReplaceAll(template, Placeholder(variables[0].0), variables[0].1), variables[1..])
  }

  /** Applying a list of variables is applying its first part, then the rest. */
  lemma {:induction false} PopulateSplit(template: string, variables: seq<(string, string)>, i: nat)
    requires i < |variables|
    ensures Populate(template, variables[..i + 1])
      == ReplaceAll(Populate(template, variables[..i]), Placeholder(variables[i].0), variables[i].1)
    decreases i
  {
    if i > 0 {
      var first := ReplaceAll(template, Placeholder(variables[0].0), variables[0].1);
      assert variables[..i + 1][1..] == variables[1..][..i];
      assert variables[..i][1..] == variables[1..][..i - 1];
      PopulateSplit(first, variables[1..], i - 1);
    }
  }

  /** `populateTemplate`. */
  method PopulateTemplate(template: string, variables: seq<(string, string)>) returns (populated: string)
    ensures populated == Populate(template, variables)
  {
    populated := template;
    for i := 0 to |variables|
      invariant populated == Populate(template, variables[..i])
    {
      var placeholder := Placeholder(variables[i].0);
      PopulateSplit(template, variables, i);
      populated := ReplaceAll(populated, placeholder, variables[i].1);
    }
    assert variables[..|variables|] == variables;
  }

  /** No variables, or variables none of whose placeholders occur, leave the
      template as it is. */
  lemma {:induction false} PopulateAbsent(template: string, variables: seq<(string, string)>)
    requires forall i :: 0 <= i < |variables| ==> !Occurs(template, Placeholder(variables[i].0))
    ensures Populate(template, variables) == template
    decreases |variables|
  {
    if variables != [] {
      ReplaceAllAbsent(template, Placeholder(variables[0].0), variables[0].1);
      PopulateAbsent(template, variables[1..]);
    }
  }

  /** The sample templates have no placeholder unless the event type or the
      operator brings a '{', so populating them changes nothing. */
  lemma PopulateSampleTemplate(eventType: string, operator: string, variables: seq<(string, string)>)
    requires '{' !in eventType && '{' !in operator
    ensures Populate(GetTemplate(eventType, operator), variables) == GetTemplate(eventType, operator)
  {
    var t := GetTemplate(eventType, operator);
    forall c | c in t ensures c != '{' {
      var i :| 0 <= i < |t| && t[i] == c;
      if i < 6 {
        assert t[i] == "sample"[i];
      } else if i < 6 + |eventType| {
        assert t[i] == eventType[i - 6];
      } else if i == 6 + |eventType| {
        assert t[i] == ':';
      } else if i < 7 + |eventType| + |operator| {
        assert t[i] == operator[i - 7 - |eventType|];
      } else {
        assert t[i] == " template"[i - 7 - |eventType| - |operator|];
      }
    }
    forall i | 0 <= i < |variables| ensures !Occurs(t, Placeholder(variables[i].0)) {
      AbsentCharNoOccurrence(t, Placeholder(variables[i].0));
    }
    PopulateAbsent(t, variables);
  }

  /** Substitution is sequential: when the text is a first key's
      placeholder and that key's value holds a second key's placeholder,
      the second variable replaces it too, so the result is the value with
      the second substitution applied. */
  lemma SequentialSubstitution(k1: string, v1: string, k2: string, v2: string)
    ensures Populate(Placeholder(k1), [(k1, v1), (k2, v2)]) == ReplaceAll(v1, Placeholder(k2), v2)
  {
    var variables := [(k1, v1), (k2, v2)];
    ReplaceAllWhole(Placeholder(k1), v1);
    calc {
      Populate(Placeholder(k1), variables);
      Populate(ReplaceAll(Placeholder(k1), Placeholder(k1), v1), variables[1..]);
      { assert variables[1..] == [(k2, v2)]; }
      Populate(v1, [(k2, v2)]);
      { assert [(k2, v2)][1..] == []; }
      Populate(ReplaceAll(v1, Placeholder(k2), v2), []);
      ReplaceAll(v1, Placeholder(k2), v2);
    }
  }
}
