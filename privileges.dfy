/** The privilege catalogue shared by employees and clients, and the test
    that a string names a privilege. */
module Privileges {

  const EmployeePrivileges: seq<string> :=
    ["ADMIN", "FILTER", "SEARCH", "TRADE_STOCKS", "VIEW_STOCKS", "CONTRACTS", "NEW_INSURANCES"]

  const ClientPrivileges: seq<string> :=
    ["ADMIN", "FILTER", "SEARCH", "TRADE_STOCKS", "VIEW_STOCKS", "CONTRACTS", "NEW_INSURANCES"]

  /** `[...EMPLOYEE_PRIVILEGES_, ...CLIENT_PRIVILEGES_]`. */
  const AllPrivileges: seq<string> := EmployeePrivileges + ClientPrivileges

  /** `ALL_PRIVILEGES.includes(s)`: exact, case-sensitive membership. */
  function IsValidPrivilege(s: string): (valid: bool)
    ensures valid <==> s in EmployeePrivileges || s in ClientPrivileges
  {
    s in AllPrivileges
  }

  /** Number of occurrences of `x` in `s`. */
  function Occurrences(s: seq<string>, x: string): (n: nat)
    ensures n <= |s|
    ensures n == 0 <==> x !in s
  {
    if s == [] then 0 else (if s[0] == x then 1 else 0) + Occurrences(s[1..], x)
  }

  lemma {:induction false} OccurrencesAppend(s: seq<string>, t: seq<string>, x: string)
    ensures Occurrences(s + t, x) == Occurrences(s, x) + Occurrences(t, x)
  {
    if s == [] {
      assert s + t == t;
    } else {
      assert (s + t)[1..] == s[1..] + t;
      OccurrencesAppend(s[1..], t, x);
    }
  }

  /** Every listed employee or client privilege passes the test. */
  lemma ListedPrivilegesValid()
    ensures forall p :: p in EmployeePrivileges ==> IsValidPrivilege(p)
    ensures forall p :: p in ClientPrivileges ==> IsValidPrivilege(p)
  {
  }

  /** The two lists are the same seven names in the same order, with no
      repetition inside either. */
  lemma ListsCoincide()
    ensures EmployeePrivileges == ClientPrivileges
    ensures |EmployeePrivileges| == 7
    ensures forall i, j :: 0 <= i < j < 7 ==> EmployeePrivileges[i] != EmployeePrivileges[j]
  {
  }

  /** The concatenated catalogue has 14 entries and names every privilege
      exactly twice. */
  lemma {:induction false} AllPrivilegesTwice(p: string)
    requires IsValidPrivilege(p)
    ensures |AllPrivileges| == 14
    ensures Occurrences(AllPrivileges, p) == 2
  {
    ListsCoincide();
    OccurrencesAppend(EmployeePrivileges, ClientPrivileges, p);
    var e := EmployeePrivileges;
    var i :| 0 <= i < 7 && e[i] == p;
    OccurrencesOfDistinct(e, i);
  }

  /** In a list without repetition, an element at position `i` occurs once. */
  lemma {:induction false} OccurrencesOfDistinct(s: seq<string>, i: nat)
    requires i < |s|
    requires forall a, b :: 0 <= a < b < |s| ==> s[a] != s[b]
    ensures Occurrences(s, s[i]) == 1
  {
    if i == 0 {
      assert s[i] !in s[1..] by {
        forall k | 0 <= k < |s[1..]| ensures s[1..][k] != s[0] {
          assert s[1..][k] == s[k + 1];
        }
      }
    } else {
      assert s[1..][i - 1] == s[i];
      OccurrencesOfDistinct(s[1..], i - 1);
    }
  }

  /** Matching is exact: other spellings are not privileges. */
  lemma CaseSensitive()
    ensures !IsValidPrivilege("admin")
    ensures !IsValidPrivilege("none")
    ensures !IsValidPrivilege("")
  {
  }
}
