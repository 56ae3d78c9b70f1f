/**
 * AddAccountDialog and EditAccountDialog: a name field and a type menu.
 * The confirm callbacks are the results of `OnConfirm`.
 */
module AccountDialog {
  import opened Wrappers
  import opened Entities
  import opened Text

  /** The type menu, in display order. */
  const MenuTypes: seq<string> := ["Cash", "Bank", "Savings", "Credit Card", "Other"]

  /** The add dialog's type before a menu pick. */
  const InitialType := "General"

  lemma InitialTypeNotInMenu()
    ensures InitialType !in MenuTypes
  {
  }

  class AddAccountDialog {
    var name: string
    var kind: string

    /** The type is the initial one or a menu pick. */
    predicate Valid()
      reads this
    {
      kind == InitialType || kind in MenuTypes
    }

    constructor ()
      ensures Valid() && name == "" && kind == InitialType
    {
      name := "";
      kind := InitialType;
    }

    method OnNameChange(text: string)
      requires Valid()
      modifies this
      ensures Valid() && name == text && kind == old(kind)
    {
      name := text;
    }

    method OnMenuItemClick(index: int)
      requires Valid() && 0 <= index < |MenuTypes|
      modifies this
      ensures Valid() && kind == MenuTypes[index] && name == old(name)
    {
      kind := MenuTypes[index];
    }

    /** "Add": `onConfirm(name, type)` fires only for a non-blank name. */
    method OnConfirm() returns (confirmed: Option<(string, string)>)
      requires Valid()
      ensures confirmed.Some? <==> !IsBlank(name)
      ensures confirmed.Some? ==> confirmed.value == (name, kind)
      ensures confirmed.Some? ==> confirmed.value.1 == InitialType || confirmed.value.1 in MenuTypes
    {
      confirmed := None;
      if !IsBlank(name) {
        confirmed := Some((name, kind));
      }
    }
  }

  class EditAccountDialog {
    const account: Account
    var name: string
    var kind: string

    predicate Valid()
      reads this
    {
      kind == account.fields.kind || kind in MenuTypes
    }

    /** The fields start at the account's current name and type. */
    constructor (account: Account)
      ensures Valid() && this.account == account
      ensures name == account.fields.name && kind == account.fields.kind
    {
      this.account := account;
      name := account.fields.name;
      kind := account.fields.kind;
    }

    method OnNameChange(text: string)
      requires Valid()
      modifies this
      ensures Valid() && name == text && kind == old(kind)
    {
      name := text;
    }

    method OnMenuItemClick(index: int)
      requires Valid() && 0 <= index < |MenuTypes|
      modifies this
      ensures Valid() && kind == MenuTypes[index] && name == old(name)
    {
      kind := MenuTypes[index];
    }

    /** "Update": for a non-blank name, a copy of the account with only its name and type replaced. */
    method OnConfirm() returns (updated: Option<Account>)
      requires Valid()
      ensures updated.Some? <==> !IsBlank(name)
      ensures updated.Some? ==>
                updated.value.id == account.id && updated.value.fields.balance == account.fields.balance &&
                updated.value.fields.name == name && updated.value.fields.kind == kind
    {
      updated := None;
      if !IsBlank(name) {
        updated := Some(account.(fields := account.fields.(name := name, kind := kind)));
      }
    }
  }
}
