/** Keyboard buttons: a string that also compares equal to its alias texts. */
module Buttons {

  datatype Button = Button(text: string, aliases: seq<string>)

  /** Button(text, *alt): the string value is the primary text. */
  function NewButton(text: string, alt: seq<string>): (b: Button)
    ensures Str(b) == text
    ensures AllTexts(b)[0] == text
    ensures forall t :: t in AllTexts(b) <==> t == text || t in alt
  {
    Button(text, alt)
  }

  function Str(b: Button): string { b.text }

  function AllTexts(b: Button): seq<string> { [b.text] + b.aliases }

  /** Button.__eq__: membership in the tuple of all texts. */
  predicate Equals(b: Button, other: string) { other in AllTexts(b) }

  /** A button equals its primary text and its aliases, and no other string. */
  lemma EqualsIff(b: Button, other: string)
    ensures Equals(b, other) <==> other == Str(b) || other in b.aliases
  {
    assert AllTexts(b)[0] == b.text;
  }

  const Auth: Button := NewButton("\U{1F464} Авторизуватися", [])
  const Receipt: Button := NewButton("\U{1F4DC} Створити чек", ["Створити чек"])
  const Cancel: Button := NewButton("\U{1F6AB} Скасувати", [])

  /** btn_receipt still answers to the old text without the emoji. */
  lemma ReceiptAnswersBoth()
    ensures Equals(Receipt, "\U{1F4DC} Створити чек") && Equals(Receipt, "Створити чек")
    ensures !Equals(Receipt, "\U{1F6AB} Скасувати")
  {
    EqualsIff(Receipt, "\U{1F6AB} Скасувати");
  }

}
