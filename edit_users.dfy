/** The interactive `MKQNX_USERS` editor: the `user/password:user:...` codec,
    the four list edits the menu offers (add, edit, delete, move), and the line
    patch that writes the list back into `.config`. Prompts are replaced by the
    answers the user would type, passed as arguments. */
module EditUsers {
  import opened Wrappers
  import opened Strings
  import ConfigParser

  /** One `(username, password)` entry. `None` means no password is stored, so
      the image tool makes one up; the password `-` is the explicit
      "no password" marker and is kept as text like any other. */
  datatype User = User(name: string, pwd: Option<string>)

  // ---------------------------------------------------------------------------
  // USERNAME_RE
  // ---------------------------------------------------------------------------

  predicate IsNameChar(c: char)
  {
    ('A' <= c <= 'Z') || ('a' <= c <= 'z') || ('0' <= c <= '9') || c == '_' || c == '-'
  }

  /** `USERNAME_RE.match(name)` for `^[A-Za-z0-9_-]+$`. Every name it is applied
      to has been stripped, so the trailing newline `$` also admits never occurs. */
  predicate ValidName(s: string)
  {
    |s| > 0 && forall i :: 0 <= i < |s| ==> IsNameChar(s[i])
  }

  // ---------------------------------------------------------------------------
  // The codec
  // ---------------------------------------------------------------------------

  /** A password that is absent or empty is left out of the string. */
  predicate NoPassword(p: Option<string>)
  {
    p == None || p == Some("")
  }

  /** One entry's part of the string: the bare name, or `name/password`. */
  function Part(u: User): string
  {
    if NoPassword(u.pwd) then u.name else u.name + "/" + u.pwd.value
  }

  /** The parts in entry order; entries with an empty name are dropped. */
  function Parts(es: seq<User>): (r: seq<string>)
    ensures |r| <= |es|
  {
    if |es| == 0 then []
    else
      var u := es[|es| - 1];
      Parts(es[..|es| - 1]) + (if u.name == "" then [] else [Part(u)])
  }

  /** `render_users_to_string`: the parts joined with `:`. */
  function Encode(es: seq<User>): string
  {
    Join(Parts(es), ':')
  }

  /** One non-empty segment: split at its first `/` into name and password, or
      a bare name with no password. */
  function Entry(item: string): (u: User)
    ensures '/' !in u.name
    ensures u.pwd == None <==> '/' !in item
    ensures u.pwd.Some? ==> item == u.name + "/" + u.pwd.value
  {
    var i := IndexOf(item, '/');
    if i == |item| then User(item, None)
    else
      assert item == item[..i] + "/" + item[i + 1..];
      User(item[..i], Some(item[i + 1..]))
  }

  /** The entries of the segments in order; empty segments are skipped. */
  function Entries(items: seq<string>): (r: seq<User>)
    ensures |r| <= |items|
  {
    if |items| == 0 then []
    else
      var item := items[|items| - 1];
      Entries(items[..|items| - 1]) + (if item == "" then [] else [Entry(item)])
  }

  /** `parse_users_from_string`: the empty string has no entries; otherwise
      the entries of its `:`-segments. */
  function Decode(s: string): seq<User>
  {
    if s == "" then [] else Entries(Split(s, ':'))
  }

  /** `render_users_to_string`, loop by loop. */
  method RenderUsers(es: seq<User>) returns (s: string)
    ensures s == Encode(es)
  {
    var parts: seq<string> := [];
    for i := 0 to |es|
      invariant parts == Parts(es[..i])
    {
      assert es[..i + 1][..i] == es[..i];
      var u := es[i];
      if u.name == "" {
        continue;
      }
      if u.pwd == None || u.pwd == Some("") {
        parts := parts + [u.name];
      } else {
        parts := parts + [u.name + "/" + u.pwd.value];
      }
    }
    assert es[..|es|] == es;
    s := Join(parts, ':');
  }

  /** `parse_users_from_string`, loop by loop. */
  method ParseUsers(s: string) returns (out: seq<User>)
    ensures out == Decode(s)
  {
    out := [];
    if s == "" {
      return;
    }
    var items := Split(s, ':');
    for i := 0 to |items|
      invariant out == Entries(items[..i])
    {
      assert items[..i + 1][..i] == items[..i];
      var item := items[i];
      if item == "" {
        continue;
      }
      var slash := IndexOf(item, '/');
      if slash < |item| {
        out := out + [User(item[..slash], Some(item[slash + 1..]))];
      } else {
        out := out + [User(item, None)];
      }
    }
    assert items[..|items|] == items;
  }

  // ---------------------------------------------------------------------------
  // Properties of the codec
  // ---------------------------------------------------------------------------

  /** What decoding yields: names without `:` or `/`, passwords without `:`, and
      no entry made of nothing (a segment `/` alone gives an empty name and an
      empty password, which is still something). */
  lemma {:induction false} EntriesShape(items: seq<string>)
    requires forall k :: 0 <= k < |items| ==> ':' !in items[k]
    ensures forall u :: u in Entries(items) ==>
      ':' !in u.name && '/' !in u.name && (u.pwd.Some? ==> ':' !in u.pwd.value)
      && (u.name != "" || u.pwd.Some?)
    decreases |items|
  {
    if |items| > 0 {
      var item := items[|items| - 1];
      EntriesShape(items[..|items| - 1]);
      if item != "" {
        var u := Entry(item);
        if u.pwd.Some? {
          assert forall c :: c in u.pwd.value ==> c in item;
          assert forall c :: c in u.name ==> c in item;
        }
      }
    }
  }

  lemma DecodeShape(s: string)
    ensures forall u :: u in Decode(s) ==>
      ':' !in u.name && '/' !in u.name && (u.pwd.Some? ==> ':' !in u.pwd.value)
      && (u.name != "" || u.pwd.Some?)
  {
    if s != "" {
      EntriesShape(Split(s, ':'));
    }
  }

  /** An entry the codec can carry: a non-empty name with neither separator,
      and a password without `:`. */
  predicate Storable(u: User)
  {
    u.name != "" && ':' !in u.name && '/' !in u.name && (u.pwd.Some? ==> ':' !in u.pwd.value)
  }

  /** The entry as it comes back: an empty password comes back as none. */
  function Canonical(u: User): User
  {
    if NoPassword(u.pwd) then User(u.name, None) else u
  }

  lemma EntryOfPart(u: User)
    requires Storable(u)
    ensures Part(u) != "" && ':' !in Part(u)
    ensures Entry(Part(u)) == Canonical(u)
  {
    if !NoPassword(u.pwd) {
      IndexOfAfter(u.name, '/', u.pwd.value);
      assert u.name + "/" + u.pwd.value == u.name + ['/'] + u.pwd.value;
    } else {
      assert IndexOf(u.name, '/') == |u.name|;
    }
  }

  lemma {:induction false} EntriesOfParts(es: seq<User>)
    requires forall i :: 0 <= i < |es| ==> Storable(es[i])
    ensures |Parts(es)| == |es|
    ensures forall k :: 0 <= k < |es| ==> Parts(es)[k] != "" && ':' !in Parts(es)[k]
    ensures |Entries(Parts(es))| == |es|
    ensures forall k :: 0 <= k < |es| ==> Entries(Parts(es))[k] == Canonical(es[k])
    decreases |es|
  {
    if |es| > 0 {
      var init := es[..|es| - 1];
      var u := es[|es| - 1];
      EntriesOfParts(init);
      EntryOfPart(u);
      var ps := Parts(init) + [Part(u)];
      assert Parts(es) == ps;
      ButLast(Parts(init), Part(u));
    }
  }

  /** Decoding an encoded list gives it back, with empty passwords read as
      none, whenever every entry is storable. */
  lemma RoundTrip(es: seq<User>)
    requires forall i :: 0 <= i < |es| ==> Storable(es[i])
    ensures |Decode(Encode(es))| == |es|
    ensures forall i :: 0 <= i < |es| ==> Decode(Encode(es))[i] == Canonical(es[i])
  {
    EntriesOfParts(es);
    if |es| > 0 {
      var ps := Parts(es);
      SplitJoin(ps, ':');
      assert Join(ps, ':') != "" by {
        assert |ps| > 0 && ps[0] != "";
        JoinFirst(ps, ':');
      }
    }
  }

  /** A segment that encoding reproduces: non-empty, and, when it has a `/`,
      one that is neither its first nor its last character. */
  predicate Canonic(item: string)
  {
    var i := IndexOf(item, '/');
    item != "" && i != 0 && (i < |item| ==> i != |item| - 1)
  }

  lemma PartOfEntry(item: string)
    requires Canonic(item)
    ensures Entry(item).name != "" && Part(Entry(item)) == item
  {
  }

  lemma {:induction false} PartsOfEntries(items: seq<string>)
    requires forall k :: 0 <= k < |items| ==> Canonic(items[k])
    ensures Parts(Entries(items)) == items
    decreases |items|
  {
    if |items| > 0 {
      var init := items[..|items| - 1];
      var item := items[|items| - 1];
      PartsOfEntries(init);
      PartOfEntry(item);
      var es := Entries(init) + [Entry(item)];
      assert Entries(items) == es;
      ButLast(Entries(init), Entry(item));
      assert Parts(es) == Parts(Entries(init)) + [item];
      LastSplit(items);
    }
  }

  /** Encoding a decoded string gives it back when every segment is canonic. */
  lemma EncodeDecode(s: string)
    requires s != "" ==> forall k :: 0 <= k < |Split(s, ':')| ==> Canonic(Split(s, ':')[k])
    ensures Encode(Decode(s)) == s
  {
    if s != "" {
      PartsOfEntries(Split(s, ':'));
      JoinSplit(s, ':');
    }
  }

  // ---------------------------------------------------------------------------
  // The list edits, as functions of the list and the user's answers
  // ---------------------------------------------------------------------------

  /** How a typed password is stored: nothing typed means no password. */
  function StoredPassword(typed: string): (p: Option<string>)
    ensures p == None <==> typed == ""
  {
    if typed == "" then None else Some(typed)
  }

  /** The name `add_user` settles on, given the successive answers to its
      prompt: an empty answer cancels, an invalid one is asked again, the first
      valid one is taken. `None` when the answers run out first. */
  function ChosenName(answers: seq<string>): (r: Option<string>)
    ensures r.Some? ==> ValidName(r.value)
  {
    if |answers| == 0 then None
    else
      var name := Strip(answers[0]);
      if name == "" then None
      else if ValidName(name) then Some(name)
      else ChosenName(answers[1..])
  }

  /** The answers `add_user` asks again after: non-empty and invalid. */
  predicate Rejected(answer: string)
  {
    Strip(answer) != "" && !ValidName(Strip(answer))
  }

  /** For each answer, whether `add_user` asks again after it. */
  function Verdicts(answers: seq<string>): (r: seq<bool>)
    ensures |r| == |answers|
    ensures forall i :: 0 <= i < |answers| ==> r[i] == Rejected(answers[i])
  {
    if |answers| == 0 then [] else [Rejected(answers[0])] + Verdicts(answers[1..])
  }

  /** The index of the first `false`, or the length when there is none. */
  function FirstFalse(flags: seq<bool>): (i: nat)
    ensures i <= |flags|
    ensures i < |flags| ==> !flags[i]
  {
    if |flags| == 0 || !flags[0] then 0 else 1 + FirstFalse(flags[1..])
  }

  lemma {:induction false} BeforeFirstFalse(flags: seq<bool>, j: nat)
    requires j < FirstFalse(flags)
    ensures flags[j]
    decreases j
  {
    if j > 0 {
      BeforeFirstFalse(flags[1..], j - 1);
    }
  }

  /** The index of the first answer `add_user` does not ask again after, or
      the number of answers when it asks again after each of them. */
  function FirstKept(answers: seq<string>): (i: nat)
    ensures i <= |answers|
    ensures i < |answers| ==> !Rejected(answers[i])
  {
    FirstFalse(Verdicts(answers))
  }

  /** Every answer before the first kept one is asked again after. */
  lemma BeforeFirstKept(answers: seq<string>, j: nat)
    requires j < FirstKept(answers)
    ensures Rejected(answers[j])
  {
    BeforeFirstFalse(Verdicts(answers), j);
  }

  lemma FirstKeptStep(answers: seq<string>)
    requires |answers| > 0
    ensures FirstKept(answers) == if Rejected(answers[0]) then 1 + FirstKept(answers[1..]) else 0
  {
    var v := Verdicts(answers);
    assert v[1..] == Verdicts(answers[1..]);
  }

  /** The name chosen is the first answer not asked again after, unless that
      answer is empty (a cancel) or there is none. */
  lemma {:induction false} ChosenNameIsFirst(answers: seq<string>)
    ensures var i := FirstKept(answers);
      ChosenName(answers) == if i < |answers| && Strip(answers[i]) != "" then Some(Strip(answers[i])) else None
    decreases |answers|
  {
    if |answers| > 0 {
      FirstKeptStep(answers);
      if Rejected(answers[0]) {
        ChosenNameIsFirst(answers[1..]);
      }
    }
  }

  /** `add_user`: the chosen name with the typed password, appended last. */
  function Added(es: seq<User>, answers: seq<string>, typed: string): (r: seq<User>)
    ensures ChosenName(answers).Some? ==>
      |r| == |es| + 1 && r[..|es|] == es && ValidName(r[|es|].name)
      && r[|es|] == User(ChosenName(answers).value, StoredPassword(typed))
    ensures ChosenName(answers).None? ==> r == es
  {
    match ChosenName(answers)
    case None => es
    case Some(name) => es + [User(name, StoredPassword(typed))]
  }

  /** The name `edit_user` tries: the answer, or the current name when the
      answer is empty, stripped. */
  function EditedName(current: string, answer: string): string
  {
    Strip(if answer == "" then current else answer)
  }

  /** The password `edit_user` keeps: the current one when nothing is typed. */
  function EditedPassword(current: Option<string>, typed: string): (p: Option<string>)
    ensures typed == "" ==> p == current
    ensures typed != "" ==> p == Some(typed)
  {
    if typed == "" then current else Some(typed)
  }

  /** Whether `edit_user` changes entry `idx`: a valid index and a valid new
      name (an empty one is not valid). */
  predicate EditApplies(es: seq<User>, idx: int, answer: string)
  {
    0 <= idx < |es| && ValidName(EditedName(es[idx].name, answer))
  }

  /** `edit_user`: only entry `idx` can change, and only when the edit applies. */
  function Edited(es: seq<User>, idx: int, answer: string, typed: string): (r: seq<User>)
    ensures |r| == |es|
    ensures forall j :: 0 <= j < |es| && j != idx ==> r[j] == es[j]
    ensures !EditApplies(es, idx, answer) ==> r == es
    ensures EditApplies(es, idx, answer) ==>
      ValidName(r[idx].name) && r[idx].name == EditedName(es[idx].name, answer)
      && r[idx].pwd == EditedPassword(es[idx].pwd, typed)
  {
    if EditApplies(es, idx, answer) then
      es[idx := User(EditedName(es[idx].name, answer), EditedPassword(es[idx].pwd, typed))]
    else es
  }

  /** `confirm.strip().lower() == "y"`. */
  predicate Confirmed(answer: string)
  {
    Lower(Strip(answer)) == "y"
  }

  /** Only `y` and `Y` confirm, once surrounding white space is stripped. */
  lemma ConfirmedExactly(answer: string)
    ensures Confirmed(answer) <==> Strip(answer) == "y" || Strip(answer) == "Y"
  {
    var t := Strip(answer);
    if Confirmed(answer) {
      assert |t| == 1 && LowerChar(t[0]) == 'y';
      assert t == [t[0]];
    }
    if t == "y" || t == "Y" {
      assert Lower(t) == [LowerChar(t[0])];
    }
  }

  /** `delete_user`: entry `idx` goes when the index is valid and the answer
      confirms; otherwise nothing changes. */
  function Deleted(es: seq<User>, idx: int, answer: string): (r: seq<User>)
    ensures 0 <= idx < |es| && Confirmed(answer) ==>
      |r| == |es| - 1 && r[..idx] == es[..idx] && r[idx..] == es[idx + 1..]
      && multiset(r) == multiset(es) - multiset{es[idx]}
    ensures !(0 <= idx < |es| && Confirmed(answer)) ==> r == es
  {
    if 0 <= idx < |es| && Confirmed(answer) then
      assert es == es[..idx] + [es[idx]] + es[idx + 1..];
      es[..idx] + es[idx + 1..]
    else es
  }

  /** Whether `move_user` acts: both indices are checked against the length
      before the removal, so `dst` may equal it. */
  predicate MoveApplies(es: seq<User>, src: int, dst: int)
  {
    0 <= src < |es| && 0 <= dst <= |es|
  }

  /** Where the moved entry lands: `list.insert` past the end appends, so
      `dst == |es|` lands last, like `dst == |es| - 1`. */
  function Landing(es: seq<User>, src: int, dst: int): (r: int)
    ensures MoveApplies(es, src, dst) ==> 0 <= r < |es|
  {
    if dst < |es| then dst else |es| - 1
  }

  /** `move_user`: `pop(src)`, then `insert(dst, item)` into the shorter list. */
  function Moved(es: seq<User>, src: int, dst: int): (r: seq<User>)
    ensures |r| == |es|
    ensures multiset(r) == multiset(es)
    ensures MoveApplies(es, src, dst) ==> r[Landing(es, src, dst)] == es[src]
    ensures !MoveApplies(es, src, dst) ==> r == es
  {
    if MoveApplies(es, src, dst) then
      var item := es[src];
      var rest := es[..src] + es[src + 1..];
      var at := if dst <= |rest| then dst else |rest|;
      assert es == es[..src] + [item] + es[src + 1..];
      assert multiset(es) == multiset(rest) + multiset{item};
      assert rest == rest[..at] + rest[at..];
      assert multiset(rest) == multiset(rest[..at]) + multiset(rest[at..]);
      rest[..at] + [item] + rest[at..]
    else es
  }

  /** The moved list is the list without the entry, with the entry put back
      at its landing position. */
  lemma MovedShape(es: seq<User>, src: int, dst: int)
    requires MoveApplies(es, src, dst)
    ensures var rest := es[..src] + es[src + 1..];
      var d := Landing(es, src, dst);
      d <= |rest| && Moved(es, src, dst) == rest[..d] + [es[src]] + rest[d..]
  {
  }

  /** The other entries keep their relative order. */
  lemma MovedKeepsOthers(es: seq<User>, src: int, dst: int)
    requires MoveApplies(es, src, dst)
    ensures var d := Landing(es, src, dst);
      Moved(es, src, dst)[..d] + Moved(es, src, dst)[d + 1..] == es[..src] + es[src + 1..]
  {
    var rest := es[..src] + es[src + 1..];
    var d := Landing(es, src, dst);
    MovedShape(es, src, dst);
    CutOut(rest[..d], es[src], rest[d..]);
    Rejoin(rest, d);
  }

  /** Moving an entry to the last position or one past it gives the same
      list: the entry is taken out and appended. */
  lemma MovedToEnd(es: seq<User>, src: int, dst: int)
    requires 0 <= src < |es| && (dst == |es| - 1 || dst == |es|)
    ensures Moved(es, src, dst) == es[..src] + es[src + 1..] + [es[src]]
  {
    var rest := es[..src] + es[src + 1..];
    assert rest[..|rest|] == rest && rest[|rest|..] == [];
  }

  // ---------------------------------------------------------------------------
  // The list the menu edits in place
  // ---------------------------------------------------------------------------

  /** `user_entries`, the list the menu's actions mutate. */
  class UserList {
    var entries: seq<User>

    constructor (es: seq<User>)
      ensures entries == es
    {
      entries := es;
    }

    /** `add_user`, with the answers to the name prompt in order and the typed
        password. Reports whether an entry was appended. */
    method AddUser(answers: seq<string>, typed: string) returns (added: bool)
      modifies this
      ensures added <==> ChosenName(answers).Some?
      ensures entries == Added(old(entries), answers, typed)
    {
      var i := 0;
      while i < |answers|
        invariant 0 <= i <= |answers|
        invariant ChosenName(answers[i..]) == ChosenName(answers)
        invariant entries == old(entries)
      {
        assert answers[i..][1..] == answers[i + 1..];
        var name := Strip(answers[i]);
        if name == "" {
          return false;
        }
        if ValidName(name) {
          var pwd: Option<string> := if typed == "" then None else Some(typed);
          entries := entries + [User(name, pwd)];
          return true;
        }
        i := i + 1;
      }
      return false;
    }

    /** `edit_user`, with the answers to its two prompts. */
    method EditUser(idx: int, answer: string, typed: string) returns (edited: bool)
      modifies this
      ensures edited <==> EditApplies(old(entries), idx, answer)
      ensures entries == Edited(old(entries), idx, answer, typed)
    {
      if !(0 <= idx < |entries|) {
        return false;
      }
      var current := entries[idx];
      var name := Strip(if answer == "" then current.name else answer);
      if name == "" {
        return false;
      }
      if !ValidName(name) {
        return false;
      }
      var pwd := if typed == "" then current.pwd else Some(typed);
      entries := entries[idx := User(name, pwd)];
      return true;
    }

    /** `delete_user`, with the answer to the confirmation prompt. */
    method DeleteUser(idx: int, answer: string) returns (deleted: bool)
      modifies this
      ensures deleted <==> 0 <= idx < |old(entries)| && Confirmed(answer)
      ensures entries == Deleted(old(entries), idx, answer)
    {
      if !(0 <= idx < |entries|) {
        return false;
      }
      var confirm := Lower(Strip(answer));
      if confirm == "y" {
        entries := entries[..idx] + entries[idx + 1..];
        return true;
      }
      return false;
    }

    /** `move_user`. */
    method MoveUser(src: int, dst: int) returns (moved: bool)
      modifies this
      ensures moved <==> MoveApplies(old(entries), src, dst)
      ensures entries == Moved(old(entries), src, dst)
    {
      if !(0 <= src < |entries| && 0 <= dst <= |entries|) {
        return false;
      }
      var item := entries[src];
      entries := entries[..src] + entries[src + 1..];
      var at := if dst <= |entries| then dst else |entries|;
      entries := entries[..at] + [item] + entries[at..];
      return true;
    }
  }

  // ---------------------------------------------------------------------------
  // Saving: the line patch of `save_users_to_config`
  // ---------------------------------------------------------------------------

  /** `re.match(r'^\s*CONFIG_MKQNX_USERS=', ln)`. */
  predicate IsUsersLine(ln: string)
  {
    StartsWith(LStrip(ln), "CONFIG_MKQNX_USERS=")
  }

  /** `new_line`, the line that carries the encoded list. */
  function UsersLine(es: seq<User>): string
  {
    "CONFIG_MKQNX_USERS=" + Quoted(Encode(es))
  }

  function Quoted(s: string): string
  {
    "\"" + s + "\""
  }

  predicate HasUsersLine(lines: seq<string>)
  {
    exists i :: 0 <= i < |lines| && IsUsersLine(lines[i])
  }

  /** Every matching line replaced by `nl`, every other line kept, in order. */
  function Replaced(lines: seq<string>, nl: string): (r: seq<string>)
    ensures |r| == |lines|
    ensures forall i :: 0 <= i < |lines| ==> r[i] == if IsUsersLine(lines[i]) then nl else lines[i]
  {
    if |lines| == 0 then []
    else
      var ln := lines[|lines| - 1];
      Replaced(lines[..|lines| - 1], nl) + [if IsUsersLine(ln) then nl else ln]
  }

  /** The saved file: the replaced lines, and `nl` appended when no line matched. */
  function Patched(lines: seq<string>, nl: string): (r: seq<string>)
    ensures |r| == if HasUsersLine(lines) then |lines| else |lines| + 1
    ensures r[..|lines|] == Replaced(lines, nl)
    ensures !HasUsersLine(lines) ==> r[|lines|] == nl
    ensures nl in r
  {
    if HasUsersLine(lines) then
      var i :| 0 <= i < |lines| && IsUsersLine(lines[i]);
      assert Replaced(lines, nl)[i] == nl;
      Replaced(lines, nl)
    else
      assert (Replaced(lines, nl) + [nl])[..|lines|] == Replaced(lines, nl);
      Replaced(lines, nl) + [nl]
  }

  /** `save_users_to_config` without the file: the lines read in, the lines
      written out. */
  method SaveUsers(lines: seq<string>, es: seq<User>) returns (out: seq<string>)
    ensures out == Patched(lines, UsersLine(es))
  {
    var usersStr := RenderUsers(es);
    var newLine := "CONFIG_MKQNX_USERS=" + ("\"" + usersStr + "\"");
    var found := false;
    out := [];
    for i := 0 to |lines|
      invariant out == Replaced(lines[..i], newLine)
      invariant found <==> HasUsersLine(lines[..i])
    {
      ReplacedSnoc(lines, i, newLine);
      HasUsersLineSnoc(lines, i);
      if IsUsersLine(lines[i]) {
        out := out + [newLine];
        found := true;
      } else {
        out := out + [lines[i]];
      }
    }
    WholePrefix(lines);
    if !found {
      out := out + [newLine];
    }
  }

  lemma ReplacedSnoc(lines: seq<string>, i: nat, nl: string)
    requires i < |lines|
    ensures Replaced(lines[..i + 1], nl) == Replaced(lines[..i], nl) + [if IsUsersLine(lines[i]) then nl else lines[i]]
  {
    PrefixOfPrefix(lines, i);
  }

  lemma HasUsersLineSnoc(lines: seq<string>, i: nat)
    requires i < |lines|
    ensures HasUsersLine(lines[..i + 1]) <==> HasUsersLine(lines[..i]) || IsUsersLine(lines[i])
  {
    var a, b := lines[..i], lines[..i + 1];
    assert forall j :: 0 <= j < i ==> a[j] == b[j];
    assert b[i] == lines[i];
  }

  /** The saved line reads back, through `parse_config`, as the encoded list. */
  lemma SavedLineDecodes(es: seq<User>)
    ensures ConfigParser.DecodeLine(UsersLine(es)) == Some(("MKQNX_USERS", ConfigParser.S(Encode(es))))
  {
    var q := Quoted(Encode(es));
    var ln := UsersLine(es);
    UsersPrefix(q);
    assert ln[0] == 'C' && ln[|ln| - 1] == '"';
    StripUnspaced(ln);
    UsersKeyIsIdent();
    ConfigParser.MatchLineComplete("MKQNX_USERS", q);
    ConfigParser.DecodeQuoted('"', Encode(es));
  }

  lemma UsersKeyIsIdent()
    ensures ConfigParser.IsIdent("MKQNX_USERS")
  {
    IdentCharsOf("MKQNX_USERS");
  }

  /** A line `parse_config` reads as `MKQNX_USERS` is one the save replaces. */
  lemma DefinesUsersLine(line: string)
    requires ConfigParser.Defines(line, "MKQNX_USERS")
    ensures IsUsersLine(line)
  {
    var ln := Strip(line);
    var raw := ConfigParser.MatchLine(ln).value.1;
    UsersPrefix(raw);
    PrefixKept(LStrip(line), ln, "CONFIG_MKQNX_USERS=", raw);
  }

  /** In the saved file, every line `parse_config` reads as `MKQNX_USERS` is
      the new line. */
  lemma PatchedDefines(lines: seq<string>, nl: string, i: nat)
    requires i < |Patched(lines, nl)| && ConfigParser.Defines(Patched(lines, nl)[i], "MKQNX_USERS")
    ensures Patched(lines, nl)[i] == nl
  {
    var out := Patched(lines, nl);
    if i < |lines| {
      assert out[..|lines|][i] == out[i];
      if !IsUsersLine(lines[i]) {
        DefinesUsersLine(lines[i]);
      }
    }
  }

  /** After saving, `parse_config` reads the encoded list under `MKQNX_USERS`,
      whatever the file held before. */
  lemma SavedUsersReadBack(lines: seq<string>, es: seq<User>)
    ensures var cfg := ConfigParser.Decode(Patched(lines, UsersLine(es)));
      "MKQNX_USERS" in cfg && cfg["MKQNX_USERS"] == ConfigParser.S(Encode(es))
  {
    var nl := UsersLine(es);
    var out := Patched(lines, nl);
    var key := "MKQNX_USERS";
    SavedLineDecodes(es);
    var k :| 0 <= k < |out| && out[k] == nl;
    assert ConfigParser.Defines(out[k], key);
    ConfigParser.DecodeKeys(out, key);
    ConfigParser.DecodeLastWins(out, key);
    var i :| 0 <= i < |out| && ConfigParser.DecodeLine(out[i]) == Some((key, ConfigParser.Decode(out)[key]));
    PatchedDefines(lines, nl, i);
  }

  /** `read_config_lines`: the lines of the file's text, none when there is
      no file. */
  function ReadConfigLines(file: Option<string>): (r: seq<string>)
    ensures forall k :: 0 <= k < |r| ==> NoLineBreak(r[k])
    ensures file == None ==> r == []
  {
    if file.Some? then SplitLines(file.value) else []
  }

  /** Lines written by `write_config_lines`, `"\n".join(lines) + "\n"`,
      read back as themselves when none holds a line boundary; an empty list
      reads back as one empty line. */
  lemma WriteThenRead(lines: seq<string>)
    requires forall k :: 0 <= k < |lines| ==> NoLineBreak(lines[k])
    ensures lines != [] ==> ReadConfigLines(Some(JoinLines(lines))) == lines
    ensures lines == [] ==> ReadConfigLines(Some(JoinLines(lines))) == [""]
  {
    if lines != [] {
      SplitLinesOfJoin(lines);
    } else {
      assert BreakIndex("\n") == 0;
    }
  }

  /** An entry the saved file carries intact: storable, and with no line
      boundary in its name or password, which `splitlines()` would cut the
      saved line at. */
  predicate Savable(u: User)
  {
    Storable(u) && NoLineBreak(u.name) && (u.pwd.Some? ==> NoLineBreak(u.pwd.value))
  }

  lemma {:induction false} PartsNoLineBreak(es: seq<User>)
    requires forall i :: 0 <= i < |es| ==> Savable(es[i])
    ensures forall k :: 0 <= k < |Parts(es)| ==> NoLineBreak(Parts(es)[k])
    decreases |es|
  {
    if |es| > 0 {
      var u := es[|es| - 1];
      PartsNoLineBreak(es[..|es| - 1]);
      if !NoPassword(u.pwd) {
        NoLineBreakConcat(u.name, "/");
        NoLineBreakConcat(u.name + "/", u.pwd.value);
      }
    }
  }

  /** The saved line has no line boundary when no entry has one. */
  lemma UsersLineNoLineBreak(es: seq<User>)
    requires forall i :: 0 <= i < |es| ==> Savable(es[i])
    ensures NoLineBreak(UsersLine(es))
  {
    PartsNoLineBreak(es);
    NoLineBreakJoin(Parts(es), ':');
    NoLineBreakConcat("CONFIG_MKQNX_USERS=", "\"");
    NoLineBreakConcat("CONFIG_MKQNX_USERS=\"", Encode(es));
    NoLineBreakConcat("CONFIG_MKQNX_USERS=\"" + Encode(es), "\"");
    assert UsersLine(es) == "CONFIG_MKQNX_USERS=\"" + Encode(es) + "\"";
  }

  lemma PatchedNoLineBreak(lines: seq<string>, nl: string)
    requires forall k :: 0 <= k < |lines| ==> NoLineBreak(lines[k])
    requires NoLineBreak(nl)
    ensures forall k :: 0 <= k < |Patched(lines, nl)| ==> NoLineBreak(Patched(lines, nl)[k])
  {
    var out := Patched(lines, nl);
    forall k | 0 <= k < |out|
      ensures NoLineBreak(out[k])
    {
      if k < |lines| {
        assert out[k] == out[..|lines|][k];
      }
    }
  }

  /** The list the editor saves is the list it loads on its next start, up to
      empty passwords: the file's lines are read, patched, written as text,
      and that text is split into lines again and decoded by `parse_config`. */
  lemma SaveThenLoad(file: Option<string>, es: seq<User>)
    requires forall i :: 0 <= i < |es| ==> Savable(es[i])
    ensures var saved := JoinLines(Patched(ReadConfigLines(file), UsersLine(es)));
      var cfg := ConfigParser.Decode(ReadConfigLines(Some(saved)));
      "MKQNX_USERS" in cfg && cfg["MKQNX_USERS"].S?
      && |Decode(cfg["MKQNX_USERS"].s)| == |es|
      && forall i :: 0 <= i < |es| ==> Decode(cfg["MKQNX_USERS"].s)[i] == Canonical(es[i])
  {
    var lines := ReadConfigLines(file);
    var nl := UsersLine(es);
    UsersLineNoLineBreak(es);
    PatchedNoLineBreak(lines, nl);
    WriteThenRead(Patched(lines, nl));
    SavedUsersReadBack(lines, es);
    RoundTrip(es);
  }

  // ---------------------------------------------------------------------------
  // Proof steps for the verifier
  // ---------------------------------------------------------------------------
  // These lemmas model nothing of the source: each states one fact about
  // strings or sequences that a proof above needs, on its own, so that the
  // verifier proves it without strings of entries in scope.

  lemma ButLast<T>(a: seq<T>, x: T)
    ensures (a + [x])[..|a|] == a
  {
  }

  lemma LastSplit<T>(s: seq<T>)
    requires |s| > 0
    ensures s == s[..|s| - 1] + [s[|s| - 1]]
  {
  }

  lemma CutOut<T>(p: seq<T>, x: T, q: seq<T>)
    ensures (p + [x] + q)[..|p|] + (p + [x] + q)[|p| + 1..] == p + q
  {
    var s := p + [x] + q;
    assert s[..|p|] == p;
    assert s[|p| + 1..] == q;
  }

  lemma Rejoin<T>(s: seq<T>, d: int)
    requires 0 <= d <= |s|
    ensures s[..d] + s[d..] == s
  {
  }

  lemma PrefixOfPrefix<T>(s: seq<T>, i: nat)
    requires i < |s|
    ensures s[..i + 1][..i] == s[..i] && s[..i + 1][i] == s[i]
  {
  }

  lemma WholePrefix<T>(s: seq<T>)
    ensures s[..|s|] == s
  {
  }

  lemma JoinFirst(parts: seq<string>, c: char)
    requires |parts| > 0
    ensures |Join(parts, c)| >= |parts[0]|
  {
  }

  /** The prefix the save writes is the one `parse_config` splits. */
  lemma UsersPrefix(text: string)
    ensures "CONFIG_" + "MKQNX_USERS" + "=" + text == "CONFIG_MKQNX_USERS=" + text
  {
    assert "CONFIG_" + "MKQNX_USERS" + "=" == "CONFIG_MKQNX_USERS=";
  }

  lemma {:induction false} IdentCharsOf(s: string)
    requires forall i :: 0 <= i < |s| ==> IsIdentChar(s[i])
    ensures IdentChars(s)
    decreases |s|
  {
    if |s| > 0 {
      IdentCharsOf(s[1..]);
    }
  }

  lemma PrefixKept(s: string, t: string, p: string, rest: string)
    requires |t| <= |s| && t == s[..|t|] && t == p + rest
    ensures StartsWith(s, p)
  {
    assert s[..|p|] == t[..|p|];
  }
}
