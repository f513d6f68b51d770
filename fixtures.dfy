/** The mock reference data of src/lib/supabase.ts that the pages filter. */
module Fixtures {

  datatype Committee = Committee(
    id: string,
    name: string,
    slug: string,
    description: string,
    topicAreas: seq<string>,
    minDelegates: nat,
    maxDelegates: nat,
    eligibleGrades: seq<string>)

  datatype FaqEntry = FaqEntry(
    id: string,
    question: string,
    answer: string,
    category: string,
    tags: seq<string>)

  const Unsc := Committee(
    "1", "United Nations Security Council", "unsc",
    "The Security Council has primary responsibility for the maintenance of international peace and security.",
    ["International Peace", "Security", "Conflict Resolution"], 15, 15, ["9", "10", "11", "12"])

  const GeneralAssembly := Committee(
    "2", "General Assembly", "ga",
    "The General Assembly is the main deliberative organ of the United Nations.",
    ["Global Issues", "Human Rights", "Development"], 50, 100, ["9", "10", "11", "12"])

  const Ecosoc := Committee(
    "3", "Economic and Social Council", "ecosoc",
    "ECOSOC coordinates economic and social work of UN specialized agencies.",
    ["Economic Development", "Social Issues", "Environmental Concerns"], 25, 54, ["10", "11", "12"])

  const MockCommittees: seq<Committee> := [Unsc, GeneralAssembly, Ecosoc]

  const MockFaqs: seq<FaqEntry> := [
    FaqEntry("1", "What is Model United Nations?",
      "Model United Nations (MUN) is an educational simulation where students role-play as delegates to the United Nations and simulate UN committees.",
      "General", ["basics", "introduction"]),
    FaqEntry("2", "How do I register my school?",
      "To register your school, click on the Registration page, fill out the school information form, and submit your delegate preferences.",
      "Registration", ["registration", "school"]),
    FaqEntry("3", "What documents do I need to bring?",
      "You will need to bring student ID cards, permission slips for minors, and any required medical forms.",
      "Event", ["documents", "requirements"])
  ]
}
