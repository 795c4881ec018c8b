/** The greeting stored in every child object. */
module Greeting {
  import opened Types

  /** The fixed greeting for an empty name. */
  const Anonymous: string := "Hello!"

  /** What precedes a non-empty name. */
  const Salutation: string := "Hello, "

  function SayHello(name: string): (greeting: string)
    ensures greeting == Anonymous <==> name == ""
    ensures name != "" ==> |greeting| > |Salutation| && greeting[|Salutation|..] == name
    ensures name != "" ==> greeting[..|Salutation|] == Salutation
  {
    if name == "" then Anonymous else Salutation + name
  }

  /** Recovers the name a greeting was made for, if it is one SayHello produces. */
  function GreetedName(greeting: string): (name: Option<string>)
    ensures name.Some? ==> SayHello(name.value) == greeting
  {
    if greeting == Anonymous then Some("")
    else if |greeting| > |Salutation| && greeting[..|Salutation|] == Salutation then
      assert greeting == Salutation + greeting[|Salutation|..];
      Some(greeting[|Salutation|..])
    else None
  }

  /** Every greeting names exactly the name it was made for. */
  lemma GreetingRoundTrip(name: string)
    ensures GreetedName(SayHello(name)) == Some(name)
  {
  }

  /** Distinct names never share a greeting. */
  lemma SayHelloInjective(a: string, b: string)
    requires SayHello(a) == SayHello(b)
    ensures a == b
  {
  }

  /** The empty name gets the fixed generic greeting. */
  lemma SayHelloEmpty()
    ensures SayHello("") == "Hello!"
  {
  }

  /** A non-empty name is kept verbatim, character by character, after "Hello, ". */
  lemma SayHelloKeepsName(name: string)
    requires name != ""
    ensures |SayHello(name)| == |Salutation| + |name|
    ensures SayHello(name)[..|Salutation|] == Salutation
    ensures forall i :: 0 <= i < |name| ==> SayHello(name)[|Salutation| + i] == name[i]
  {
  }

  /** The cases the unit tests pin down, spaces and punctuation included. */
  lemma SayHelloExamples()
    ensures SayHello("Kappa") == "Hello, Kappa"
    ensures SayHello("Mr. Kappa") == "Hello, Mr. Kappa"
    ensures SayHello("") == "Hello!"
  {
  }
}
