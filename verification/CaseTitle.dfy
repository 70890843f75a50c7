/** The comment a case file opens with. */
module CaseTitle {
  const TITLE: string := "# ckdbs-sim case (bench/workplan-teststrategy SIM07)"

  lemma TitleHalves()
    ensures '\n' !in "# ckdbs-sim case (bench/" && '\n' !in "workplan-teststrategy SIM07)"
  {}

  lemma TitleFront()
    ensures TITLE[..24] == "# ckdbs-sim case (bench/"
  {
    assert |TITLE[..24]| == |"# ckdbs-sim case (bench/"|;
  }

  lemma TitleBack()
    ensures TITLE[24..] == "workplan-teststrategy SIM07)"
  {}

  /** It is one line. */
  lemma TitleLine()
    ensures '\n' !in TITLE && TITLE != "" && TITLE[0] == '#'
  {
    TitleHalves();
    TitleFront();
    TitleBack();
    assert TITLE == TITLE[..24] + TITLE[24..];
  }
}
