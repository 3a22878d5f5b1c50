/** The role-administration page (app/components/AdminRoles.tsx): three
    buttons that call one guarded contract-call helper, sharing a single
    loading flag. */
module AdminRoles {
  import opened Optional
  import opened Effects

  /** The page's three actions. */
  datatype RoleAction = Grant | Revoke | Transfer

  /** The contract method each button names. */
  function ActionMethod(a: RoleAction): string {
    match a
    case Grant => "GrantAdminRole"
    case Revoke => "revokePropertyAdminRole"
    case Transfer => "TransferOwner"
  }

  /** The success message each button passes. */
  function ActionMessage(a: RoleAction): string {
    match a
    case Grant => "Admin role granted successfully!"
    case Revoke => "Admin role revoked successfully!"
    case Transfer => "Ownership transferred successfully!"
  }

  /** The address each button passes: Grant and Revoke read the same
      `adminAddress` input state, Transfer reads `ownerAddress`. */
  function ActionParam(a: RoleAction, adminAddress: string, ownerAddress: string): string {
    if a == Transfer then ownerAddress else adminAddress
  }

  /** The three buttons call three different methods, and Grant and
      Revoke act on the same address. */
  lemma ActionsDistinct(a: RoleAction, b: RoleAction, adminAddress: string, ownerAddress: string)
    ensures a != b ==> ActionMethod(a) != ActionMethod(b)
    ensures ActionParam(Grant, adminAddress, ownerAddress) == ActionParam(Revoke, adminAddress, ownerAddress)
  {
  }

  /** What one run of `callContractFunction(method, param, message)` does
      outside the component. */
  function CallEffects(hasAccount: bool, contractMethod: string, param: string, message: string,
                       tx: Outcome<string>): (r: seq<Event>)
    ensures r != [] && (r[|r| - 1].Alert? || r[|r| - 1] == Refresh)
    ensures hasAccount ==> r[0] == SendTransaction(contractMethod, [Str(param)])
  {
    if !hasAccount then [Alert("Please Connect wallet.")]
    else
      [SendTransaction(contractMethod, [Str(param)])]
      + match tx
        case Done(hash) => [Alert(message + " Transaction hash: " + hash), Refresh]
        case Threw(error) => [Alert("Transaction failed. " + error)]
  }

  /** Without a wallet nothing is written; with one, exactly one write goes
      out, to the named method with the single address argument, and the
      page refreshes exactly when it succeeded. */
  lemma CallWrites(hasAccount: bool, contractMethod: string, param: string, message: string,
                   tx: Outcome<string>)
    ensures !hasAccount ==> Writes(CallEffects(hasAccount, contractMethod, param, message, tx)) == []
    ensures hasAccount ==>
      Writes(CallEffects(hasAccount, contractMethod, param, message, tx))
      == [SendTransaction(contractMethod, [Str(param)])]
    ensures Refresh in CallEffects(hasAccount, contractMethod, param, message, tx) <==> hasAccount && tx.Done?
  {
    var e := CallEffects(hasAccount, contractMethod, param, message, tx);
    if hasAccount {
      assert Writes(e) == [e[0]] + Writes(e[1..]);
      assert Writes(e[1..]) == [] + Writes(e[2..]);
      if tx.Done? {
        assert Writes(e[2..]) == [] + Writes(e[3..]);
      }
    } else {
      assert Writes(e) == [] + Writes(e[1..]);
    }
  }

  /** A button is disabled while any call is in flight, without a wallet,
      or when its address is empty. */
  predicate Disabled(isLoading: bool, hasAccount: bool, address: string)
    ensures isLoading || !hasAccount ==> Disabled(isLoading, hasAccount, address)
    ensures !Disabled(isLoading, hasAccount, address) ==> address != ""
  {
    isLoading || !hasAccount || address == ""
  }

  /** The page's state. `activeAccount` comes from the wallet hook and is
      only read here. */
  class Page {
    var adminAddress: string
    var ownerAddress: string
    var isLoading: bool
    var activeAccount: Option<string>
    ghost var trace: seq<Event>

    constructor (account: Option<string>)
      ensures adminAddress == "" && ownerAddress == "" && !isLoading
      ensures activeAccount == account && trace == []
    {
      adminAddress := "";
      ownerAddress := "";
      isLoading := false;
      activeAccount := account;
      trace := [];
    }

    /** Either of the two admin-address inputs. */
    method SetAdminAddress(value: string)
      modifies this`adminAddress
      ensures adminAddress == value
    {
      adminAddress := value;
    }

    /** The new-owner input. */
    method SetOwnerAddress(value: string)
      modifies this`ownerAddress
      ensures ownerAddress == value
    {
      ownerAddress := value;
    }

    /** Whether an action's button is disabled. */
    predicate ButtonDisabled(a: RoleAction)
      reads this
      ensures isLoading ==> ButtonDisabled(a)
      ensures !ButtonDisabled(a) ==> activeAccount.Some? && ActionParam(a, adminAddress, ownerAddress) != ""
    {
      Disabled(isLoading, activeAccount.Some?, ActionParam(a, adminAddress, ownerAddress))
    }

    /** `callContractFunction(method, param, message)`: the wallet check
        comes before the flag is raised, so without a wallet the flag is
        left as it was; past the check it ends lowered whatever happens. */
    method CallContractFunction(contractMethod: string, param: string, message: string, tx: Outcome<string>)
      modifies this`isLoading, this`trace
      ensures isLoading == if activeAccount.None? then old(isLoading) else false
      ensures trace == old(trace) + CallEffects(activeAccount.Some?, contractMethod, param, message, tx)
    {
      if activeAccount.None? {
        trace := trace + [Alert("Please Connect wallet.")];
        return;
      }
      isLoading := true;
      trace := trace + [SendTransaction(contractMethod, [Str(param)])];
      match tx {
        case Done(hash) =>
          trace := trace + [Alert(message + " Transaction hash: " + hash)];
          isLoading := false;
          trace := trace + [Refresh];
        case Threw(error) =>
          isLoading := false;
          trace := trace + [Alert("Transaction failed. " + error)];
      }
      isLoading := false;
    }

    /** A click on an enabled button: the wallet check passes, so exactly
        one write goes out, through the button's method with its address. */
    method Click(a: RoleAction, tx: Outcome<string>)
      requires !ButtonDisabled(a)
      modifies this`isLoading, this`trace
      ensures !isLoading
      ensures trace == old(trace) + CallEffects(true, ActionMethod(a),
                                                ActionParam(a, adminAddress, ownerAddress),
                                                ActionMessage(a), tx)
    {
      CallContractFunction(ActionMethod(a), ActionParam(a, adminAddress, ownerAddress), ActionMessage(a), tx);
    }
  }
}
