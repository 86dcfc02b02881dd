/** The words printed on a certificate (main.py, create_certificate). */
module Wording {

  /** The prize ranks of an Excellence certificate. */
  datatype Rank = First | Second | Third {
    /** The value stored in the prize assignments and printed on the rank line. */
    function Name(): string
    {
      match this
      case First => "First"
      case Second => "Second"
      case Third => "Third"
    }
  }

  /** The title line: "Of " followed by the certificate type. */
  function TitleText(certType: string): (r: string)
    ensures |r| == |certType| + 3 && r[..3] == "Of " && r[3..] == certType
  {
    "Of " + certType
  }

  /** The rank line: the rank followed by " Prize". */
  function RankText(rank: Rank): (r: string)
    ensures |r| == |rank.Name()| + 6
    ensures r[..|rank.Name()|] == rank.Name() && r[|rank.Name()|..] == " Prize"
  {
    rank.Name() + " Prize"
  }

  /** The fixed header above the recipient's name. */
  const HeaderText: string := "THIS CERTIFICATE IS PROUDLY PRESENTED TO"

  /** The phrase that opens the event line: looked up by certificate type,
      "for participating in" for any type the table does not know. */
  function AchievementPhrase(certType: string): (r: string)
    ensures certType == "Excellence" ==> r == "for outstanding achievement in"
    ensures certType == "Appreciation" ==> r == "for valuable contribution to"
    ensures certType != "Excellence" && certType != "Appreciation" ==> r == "for participating in"
  {
    if certType == "Excellence" then "for outstanding achievement in"
    else if certType == "Participation" then "for participating in"
    else if certType == "Appreciation" then "for valuable contribution to"
    else "for participating in"
  }

  const EventSuffix: string := " Event by OSPC"

  /** The event line: phrase, a space, the event name, " Event by OSPC". */
  function EventText(certType: string, eventName: string): (r: string)
  {
    AchievementPhrase(certType) + " " + eventName + EventSuffix
  }

  /** Reads the event name back out of an event line. */
  function EventNameOf(certType: string, line: string): (name: string)
  {
    var lo := |AchievementPhrase(certType)| + 1;
    if lo <= |line| - |EventSuffix| then line[lo..|line| - |EventSuffix|] else []
  }

  /** The event line keeps the event name intact between the phrase and the suffix. */
  lemma EventTextRoundTrip(certType: string, eventName: string)
    ensures EventNameOf(certType, EventText(certType, eventName)) == eventName
  {
    var p := AchievementPhrase(certType);
    var line := EventText(certType, eventName);
    assert line == p + " " + eventName + EventSuffix;
    assert line[|p| + 1..|line| - |EventSuffix|] == eventName;
  }

  /** The date line: "on ", the formatted date, " at VIT Chennai". */
  function DateText(date: string): (r: string)
    ensures |r| == |date| + 18
    ensures r[..3] == "on " && r[3..3 + |date|] == date && r[3 + |date|..] == " at VIT Chennai"
  {
    "on " + date + " at VIT Chennai"
  }

  /** The speaker line: "Speaker: " and the name, then " - " and the
      designation only when the designation is not empty. */
  function SpeakerText(name: string, designation: string): (r: string)
    ensures |r| >= 9 + |name| && r[..9 + |name|] == "Speaker: " + name
    ensures designation == "" <==> |r| == 9 + |name|
    ensures designation != "" ==> r[9 + |name|..] == " - " + designation
  {
    var line := "Speaker: " + name;
    if designation != "" then line + " - " + designation else line
  }
}
