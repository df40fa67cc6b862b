/** The personalised suggestion shown after the profiling form is
    submitted (the Profilazione page of ESG1.py). */
module Profiling {

  datatype Option<T> = None | Some(value: T)

  /** The two profiles the form offers. */
  datatype ProfileType = PrivateInvestor | FinancialAdvisor

  /** The three levels of interest in ESG topics. */
  datatype EsgInterest = High | Medium | Low

  datatype Suggestion =
    | ExploreAbove80     // look at products scoring above 80, always checking the green share
    | BalanceReturn      // products exist that balance return and sustainability
    | UseComparator      // use the comparator to advise clients in detail

  /** Nothing is suggested before the form is submitted; an advisor is sent
      to the comparator whatever their interest; a private investor gets the
      high-interest suggestion only for high interest. */
  function Suggest(profile: ProfileType, interest: EsgInterest, submitted: bool): (s: Option<Suggestion>)
    ensures s.None? <==> !submitted
    ensures s == Some(UseComparator) <==> submitted && profile == FinancialAdvisor
    ensures s == Some(ExploreAbove80) <==> submitted && profile == PrivateInvestor && interest == High
    ensures s == Some(BalanceReturn) <==> submitted && profile == PrivateInvestor && interest != High
  {
    if !submitted then None
    else
      match profile
      case PrivateInvestor => if interest == High then Some(ExploreAbove80) else Some(BalanceReturn)
      case FinancialAdvisor => Some(UseComparator)
  }

  /** An advisor's suggestion does not depend on the stated interest. */
  lemma AdvisorIgnoresInterest(i: EsgInterest, j: EsgInterest)
    ensures Suggest(FinancialAdvisor, i, true) == Suggest(FinancialAdvisor, j, true)
  {
  }

  /** Medium and low interest lead to the same suggestion. */
  lemma MediumAndLowAlike(profile: ProfileType)
    ensures Suggest(profile, Medium, true) == Suggest(profile, Low, true)
  {
  }
}
