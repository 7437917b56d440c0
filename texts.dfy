/**
 * Facts about the literal template and key texts the scenarios use, kept
 * apart from the parser so that each is checked on its own.
 */
module KeyTexts {

  /** The text of placeholder `name`. */
  function Hole(name: string): string
  {
    "{" + name + "}"
  }

  /** The placeholder names the templates use contain no braces. */
  lemma PlainNames()
    ensures '{' !in "context" && '}' !in "context"
    ensures '{' !in "key" && '}' !in "key"
    ensures '{' !in "customer_id" && '}' !in "customer_id"
    ensures '{' !in "region" && '}' !in "region"
  {
  }

  /** The literal runs the templates use are non-empty and contain no `{`. */
  lemma PlainLiterals()
    ensures "." != [] && '{' !in "."
    ensures ".someapp." != [] && '{' !in ".someapp."
    ensures ".region." != [] && '{' !in ".region."
  {
  }

  lemma ContextKeySplit()
    ensures "{context}.{key}" == "{context}" + "." + "{key}"
  {
  }

  lemma HoleTexts()
    ensures Hole("context") == "{context}" && Hole("key") == "{key}"
    ensures Hole("customer_id") == "{customer_id}" && Hole("region") == "{region}"
  {
  }

  lemma ContextKeyText()
    ensures "{context}.{key}" == Hole("context") + "." + Hole("key")
  {
    HoleTexts();
    ContextKeySplit();
  }

  lemma SomeappSplit()
    ensures "{context}.someapp.{key}" == "{context}" + ".someapp." + "{key}"
  {
  }

  lemma SomeappText()
    ensures "{context}.someapp.{key}" == Hole("context") + ".someapp." + Hole("key")
  {
    HoleTexts();
    SomeappSplit();
  }

  lemma CustomerSplit()
    ensures "{context}.someapp.{customer_id}.{key}" == "{context}" + ".someapp." + "{customer_id}" + "." + "{key}"
  {
  }

  lemma CustomerText()
    ensures "{context}.someapp.{customer_id}.{key}" ==
            Hole("context") + ".someapp." + Hole("customer_id") + "." + Hole("key")
  {
    HoleTexts();
    CustomerSplit();
  }

  lemma RegionSplit()
    ensures "{context}.region.{region}.{key}" == "{context}" + ".region." + "{region}" + "." + "{key}"
  {
  }

  lemma RegionText()
    ensures "{context}.region.{region}.{key}" ==
            Hole("context") + ".region." + Hole("region") + "." + Hole("key")
  {
    HoleTexts();
    RegionSplit();
  }

  lemma DevFooText()
    ensures "dev" + "." + "foo" == "dev.foo"
  {
  }

  lemma DevSomeappText()
    ensures "dev" + ".someapp." + "foo" == "dev.someapp.foo"
  {
  }

  lemma DevCustomerText()
    ensures "dev" + ".someapp." + "12345678" + "." + "foo" == "dev.someapp.12345678.foo"
  {
  }
}
