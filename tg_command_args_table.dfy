/**
 * The rows of the `prepareArgs` table test (pkg/tg/commands_test.go), each
 * stated as what `/join` makes of the row's text: the normalised client and
 * the main-group name.
 */
module TgCommandArgsTable {
  import opened GoStrings
  import opened GoStrconv
  import opened TgCommandArgs

  /** The main-group name of the table: a letter first, no white space, no line break. */
  lemma GroupName(name: string)
    requires name == "dubai"
    ensures name != [] && IsAsciiLetter(name[0]) && '\n' !in name && NoSpace(name)
  {
  }

  lemma WithGroupName(s: string)
    ensures s + " dubai" == s + " " + "dubai"
  {
  }

  /** "+7(911) 113 59 00" and "+7(911) 113 59 00 dubai". */
  lemma SpacedPhoneRows(s: string)
    requires s == "+7(911) 113 59 00"
    ensures JoinArgs(s) == ("79111135900", "")
    ensures JoinArgs(s + " dubai") == ("79111135900", "dubai")
  {
    assert s == "+" + "7" + "(" + "911" + ") " + "113" + " " + "59" + " " + "00";
    assert "7" + "911" + "113" + "59" + "00" == "79111135900";
    assert IsDecimal("7") && IsDecimal("911") && IsDecimal("113") && IsDecimal("59") && IsDecimal("00");
    SpacedPhone("7", "911", "113", "59", "00");
    GroupName("dubai");
    PhoneArgs(s, "79111135900", 0, "dubai");
    WithGroupName(s);
  }

  /** "+7(911)113-59-00" and "+7(911)113-59-00 dubai". */
  lemma DashedPhoneRows(s: string)
    requires s == "+7(911)113-59-00"
    ensures JoinArgs(s) == ("79111135900", "")
    ensures JoinArgs(s + " dubai") == ("79111135900", "dubai")
  {
    assert s == "+" + "7" + "(" + "911" + ")" + "113" + "-" + "59" + "-" + "00";
    assert "7" + "911" + "113" + "59" + "00" == "79111135900";
    assert IsDecimal("7") && IsDecimal("911") && IsDecimal("113") && IsDecimal("59") && IsDecimal("00");
    DashedPhone("7", "911", "113", "59", "00");
    GroupName("dubai");
    PhoneArgs(s, "79111135900", 2, "dubai");
    WithGroupName(s);
  }

  /** "+79111135900", "79111135900" and each followed by " dubai". */
  lemma PlainPhoneRows(s: string, t: string)
    requires s == "+79111135900" && t == "79111135900"
    ensures JoinArgs(s) == ("79111135900", "")
    ensures JoinArgs(s + " dubai") == ("79111135900", "dubai")
    ensures JoinArgs(t) == ("79111135900", "")
    ensures JoinArgs(t + " dubai") == ("79111135900", "dubai")
  {
    assert s == "+" + t;
    assert IsDecimal(t);
    PlainPhone(t);
    GroupName("dubai");
    PhoneArgs(s, t, 0, "dubai");
    PhoneArgs(t, t, 0, "dubai");
    WithGroupName(s);
    WithGroupName(t);
  }

  /** "artem" and "artem dubai": an alias is passed on as it is. */
  lemma AliasRows(s: string)
    requires s == "artem"
    ensures JoinArgs(s) == ("artem", "")
    ensures JoinArgs(s + " dubai") == ("artem", "dubai")
  {
    assert IsAsciiLetter(s[0]) && NoSpace(s);
    assert forall i :: 0 <= i < |s| ==> !Punctuation(s[i]);
    GroupName("dubai");
    AliasArgs(s, "dubai");
    WithGroupName(s);
  }

  /** "13258-3698" and "13258-3698 dubai": a group id is passed on as it is. */
  lemma GroupRows(s: string)
    requires s == "13258-3698"
    ensures JoinArgs(s) == ("13258-3698", "")
    ensures JoinArgs(s + " dubai") == ("13258-3698", "dubai")
  {
    assert s == "13258" + "-" + "3698";
    assert IsDecimal("13258") && IsDecimal("3698");
    GroupName("dubai");
    GroupArgs("13258", "3698", "dubai");
    WithGroupName(s);
  }
}
