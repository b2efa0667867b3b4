/** `src/utils/database.ts`: the MySQL helper class of the Deno API. Connection handling
    and row mapping are I/O; what is modelled is the table contents the helpers read and
    write, the parameterised UPDATE statements they build, their defaults, and the
    pagination arithmetic. */
module Database {
  import opened Wrappers
  import opened Js
  import opened Lists

  /** A password as stored: bcrypt's `hash` is modelled symbolically, so a hash can be
      told apart from its input and a hash of a hash from a hash. */
  datatype Secret = Plain(text: string) | Hashed(input: Secret)

  /** bcrypt `hash` */
  function Hash(s: Secret): Secret {
    Hashed(s)
  }

  /** bcrypt `compare(plain, stored)`: true iff `stored` is a hash of `plain`. */
  predicate Compare(plain: string, stored: Secret) {
    stored == Hashed(Plain(plain))
  }

  datatype User = User(
    id: int, name: string, email: string, password: Secret, role: string,
    createdAt: int, updatedAt: int)

  /** A row of the products table. */
  datatype ProductRow = ProductRow(
    id: int, name: string, description: string, price: real, stock: int,
    category: string, userId: int, createdAt: int, updatedAt: int)

  /** A product as the helpers return it: the row without user_id. */
  datatype ApiProduct = ApiProduct(
    id: int, name: string, description: string, price: real, stock: int,
    category: string, createdAt: int, updatedAt: int)

  function ToApi(r: ProductRow): ApiProduct {
    ApiProduct(r.id, r.name, r.description, r.price, r.stock, r.category, r.createdAt, r.updatedAt)
  }

  /** `Partial<User>` and `Partial<Product>`: None is an undefined property. */
  datatype UserPatch = UserPatch(
    name: Option<string>, email: Option<string>, password: Option<Secret>, role: Option<string>)

  datatype ProductPatch = ProductPatch(
    name: Option<string>, description: Option<string>, price: Option<real>,
    stock: Option<int>, category: Option<string>)

  /** `if (value)` on an optional string: undefined and "" are falsy. */
  predicate Truthy(s: Option<string>) {
    s.Some? && s.value != ""
  }

  /** `if (password)`: a hash is never the empty string. */
  predicate TruthySecret(s: Option<Secret>) {
    s.Some? && s.value != Plain("")
  }

  /** `userData.role || 'user'` */
  function RoleOrDefault(role: Option<string>): (r: string)
    ensures Truthy(role) ==> r == role.value
    ensures !Truthy(role) ==> r == "user"
  {
    if Truthy(role) then role.value else "user"
  }

  // ---------------------------------------------------------------- UPDATE builders

  datatype SqlValue = SqlText(text: string) | SqlNumber(num: real) | SqlInt(whole: int) | SqlSecret(secret: Secret)

  /** The columns the two builders may set, declared in an order that both builders follow. */
  datatype Column = Name | Description | Email | Password | Price | Stock | Role | Category

  function ColumnName(c: Column): string {
    match c
    case Name => "name"
    case Description => "description"
    case Email => "email"
    case Password => "password"
    case Price => "price"
    case Stock => "stock"
    case Role => "role"
    case Category => "category"
  }

  function Rank(c: Column): nat {
    match c
    case Name => 0
    case Description => 1
    case Email => 2
    case Password => 3
    case Price => 4
    case Stock => 5
    case Role => 6
    case Category => 7
  }

  /** The order in which `updateProduct` and `updateUser` test their fields. */
  const ProductColumns: seq<Column> := [Name, Description, Price, Stock, Category]
  const UserColumns: seq<Column> := [Name, Email, Password, Role]

  /** One `column = ?` clause together with the value pushed for it. */
  datatype Assignment = Assignment(column: Column, value: SqlValue)

  /** The columns that a list of assignments sets. */
  function ColumnsOf(a: seq<Assignment>): set<Column>
    decreases |a|
  {
    if |a| == 0 then {} else {a[0].column} + ColumnsOf(a[1..])
  }

  predicate Ascending(cols: seq<Column>) {
    forall i, j :: 0 <= i < j < |cols| ==> Rank(cols[i]) < Rank(cols[j])
  }

  /** Assignments in strictly increasing column order: in particular no column twice. */
  predicate AscendingAssignments(a: seq<Assignment>) {
    forall i, j :: 0 <= i < j < |a| ==> Rank(a[i].column) < Rank(a[j].column)
  }

  /** The assignment for a column when the builder's test admits it. */
  function Piece(c: Column, value: Option<SqlValue>): (a: seq<Assignment>)
    ensures |a| <= 1
  {
    if value.Some? then [Assignment(c, value.value)] else []
  }

  /** Walking the columns in order and pushing an assignment for each one whose value is
      present. */
  function Collect(cols: seq<Column>, value: Column -> Option<SqlValue>): (a: seq<Assignment>)
    ensures |a| <= |cols|
    decreases |cols|
  {
    if |cols| == 0 then [] else Piece(cols[0], value(cols[0])) + Collect(cols[1..], value)
  }

  lemma {:induction false} ColumnsOfConcat(p: seq<Assignment>, r: seq<Assignment>)
    ensures ColumnsOf(p + r) == ColumnsOf(p) + ColumnsOf(r)
    decreases |p|
  {
    if |p| > 0 {
      assert (p + r)[1..] == p[1..] + r;
      ColumnsOfConcat(p[1..], r);
    } else {
      assert p + r == r;
    }
  }

  /** Every collected assignment carries the value the column's test produced. */
  lemma {:induction false} CollectValues(cols: seq<Column>, value: Column -> Option<SqlValue>)
    ensures forall x | x in Collect(cols, value) :: x.column in cols && value(x.column) == Some(x.value)
    decreases |cols|
  {
    if |cols| > 0 {
      CollectValues(cols[1..], value);
    }
  }

  /** A column is set iff it is walked and its value is present. */
  lemma {:induction false} CollectColumns(cols: seq<Column>, value: Column -> Option<SqlValue>)
    ensures forall c :: c in ColumnsOf(Collect(cols, value)) <==> c in cols && value(c).Some?
    decreases |cols|
  {
    if |cols| > 0 {
      CollectColumns(cols[1..], value);
      ColumnsOfConcat(Piece(cols[0], value(cols[0])), Collect(cols[1..], value));
    }
  }

  /** Walking the columns in increasing order yields assignments in that order. */
  lemma {:induction false} CollectAscending(cols: seq<Column>, value: Column -> Option<SqlValue>)
    requires Ascending(cols)
    ensures AscendingAssignments(Collect(cols, value))
    decreases |cols|
  {
    if |cols| > 0 {
      CollectAscending(cols[1..], value);
      CollectValues(cols[1..], value);
      var r := Collect(cols[1..], value);
      var a := Piece(cols[0], value(cols[0])) + r;
      HeadRankLeast(cols);
      forall i, j | 0 <= i < j < |a| ensures Rank(a[i].column) < Rank(a[j].column) {
        if |a| > |r| && i == 0 {
          assert a[j] == r[j - 1] && r[j - 1] in r;
        } else {
          assert a[i] == r[i - (|a| - |r|)] && a[j] == r[j - (|a| - |r|)];
        }
      }
    }
  }

  /** In an ascending walk the first column outranks every later one. */
  lemma HeadRankLeast(cols: seq<Column>)
    requires |cols| > 0 && Ascending(cols)
    ensures forall c | c in cols[1..] :: Rank(cols[0]) < Rank(c)
  {
    forall c | c in cols[1..] ensures Rank(cols[0]) < Rank(c) {
      var k :| 0 <= k < |cols[1..]| && cols[1..][k] == c;
      assert cols[k + 1] == c;
    }
  }

  /** `if (productData.name)` ... `if (productData.category)`: which fields of a product
      patch produce an assignment, and with what value. */
  function ProductValue(p: ProductPatch, c: Column): Option<SqlValue> {
    match c
    case Name => if Truthy(p.name) then Some(SqlText(p.name.value)) else None
    case Description => if Truthy(p.description) then Some(SqlText(p.description.value)) else None
    case Price => if p.price.Some? then Some(SqlNumber(p.price.value)) else None
    case Stock => if p.stock.Some? then Some(SqlInt(p.stock.value)) else None
    case Category => if Truthy(p.category) then Some(SqlText(p.category.value)) else None
    case _ => None
  }

  /** The same for a user patch; the password is hashed before it is pushed. */
  function UserValue(p: UserPatch, c: Column): Option<SqlValue> {
    match c
    case Name => if Truthy(p.name) then Some(SqlText(p.name.value)) else None
    case Email => if Truthy(p.email) then Some(SqlText(p.email.value)) else None
    case Password => if TruthySecret(p.password) then Some(SqlSecret(Hash(p.password.value))) else None
    case Role => if Truthy(p.role) then Some(SqlText(p.role.value)) else None
    case _ => None
  }

  function ProductAssignments(p: ProductPatch): seq<Assignment> {
    Collect(ProductColumns, c => ProductValue(p, c))
  }

  function UserAssignments(p: UserPatch): seq<Assignment> {
    Collect(UserColumns, c => UserValue(p, c))
  }

  /** Which columns a product patch sets. */
  lemma ProductAssignmentsColumns(p: ProductPatch)
    ensures Name in ColumnsOf(ProductAssignments(p)) <==> Truthy(p.name)
    ensures Description in ColumnsOf(ProductAssignments(p)) <==> Truthy(p.description)
    ensures Price in ColumnsOf(ProductAssignments(p)) <==> p.price.Some?
    ensures Stock in ColumnsOf(ProductAssignments(p)) <==> p.stock.Some?
    ensures Category in ColumnsOf(ProductAssignments(p)) <==> Truthy(p.category)
    ensures ColumnsOf(ProductAssignments(p)) <= {Name, Description, Price, Stock, Category}
  {
    var f := c => ProductValue(p, c);
    assert ProductAssignments(p) == Collect(ProductColumns, f);
    CollectColumns(ProductColumns, f);
    assert f(Name) == ProductValue(p, Name) && f(Description) == ProductValue(p, Description);
    assert f(Price) == ProductValue(p, Price) && f(Stock) == ProductValue(p, Stock);
    assert f(Category) == ProductValue(p, Category);
  }

  /** `updateProduct` sets name, description and category only when truthy (an empty
      string is skipped), price and stock whenever defined (0 included), in the fixed
      order name, description, price, stock, category, each with the supplied value. */
  lemma ProductAssignmentsRules(p: ProductPatch)
    ensures AscendingAssignments(ProductAssignments(p))
    ensures Name in ColumnsOf(ProductAssignments(p)) <==> Truthy(p.name)
    ensures Description in ColumnsOf(ProductAssignments(p)) <==> Truthy(p.description)
    ensures Price in ColumnsOf(ProductAssignments(p)) <==> p.price.Some?
    ensures Stock in ColumnsOf(ProductAssignments(p)) <==> p.stock.Some?
    ensures Category in ColumnsOf(ProductAssignments(p)) <==> Truthy(p.category)
    ensures ColumnsOf(ProductAssignments(p)) <= {Name, Description, Price, Stock, Category}
    ensures forall x | x in ProductAssignments(p) :: x.value == ProductValue(p, x.column).value
  {
    var f := c => ProductValue(p, c);
    assert ProductAssignments(p) == Collect(ProductColumns, f);
    CollectAscending(ProductColumns, f);
    CollectValues(ProductColumns, f);
    ProductAssignmentsColumns(p);
  }

  /** Which columns a user patch sets. */
  lemma UserAssignmentsColumns(p: UserPatch)
    ensures Name in ColumnsOf(UserAssignments(p)) <==> Truthy(p.name)
    ensures Email in ColumnsOf(UserAssignments(p)) <==> Truthy(p.email)
    ensures Password in ColumnsOf(UserAssignments(p)) <==> TruthySecret(p.password)
    ensures Role in ColumnsOf(UserAssignments(p)) <==> Truthy(p.role)
    ensures ColumnsOf(UserAssignments(p)) <= {Name, Email, Password, Role}
  {
    var f := c => UserValue(p, c);
    assert UserAssignments(p) == Collect(UserColumns, f);
    CollectColumns(UserColumns, f);
    assert f(Name) == UserValue(p, Name) && f(Email) == UserValue(p, Email);
    assert f(Password) == UserValue(p, Password) && f(Role) == UserValue(p, Role);
  }

  /** `updateUser` sets each of name, email, password and role only when truthy, in that
      order, and pushes the hash of the password rather than the password. */
  lemma UserAssignmentsRules(p: UserPatch)
    ensures AscendingAssignments(UserAssignments(p))
    ensures Name in ColumnsOf(UserAssignments(p)) <==> Truthy(p.name)
    ensures Email in ColumnsOf(UserAssignments(p)) <==> Truthy(p.email)
    ensures Password in ColumnsOf(UserAssignments(p)) <==> TruthySecret(p.password)
    ensures Role in ColumnsOf(UserAssignments(p)) <==> Truthy(p.role)
    ensures ColumnsOf(UserAssignments(p)) <= {Name, Email, Password, Role}
    ensures forall x | x in UserAssignments(p) && x.column == Password ::
      x.value == SqlSecret(Hash(p.password.value))
  {
    var f := c => UserValue(p, c);
    assert UserAssignments(p) == Collect(UserColumns, f);
    CollectAscending(UserColumns, f);
    CollectValues(UserColumns, f);
    UserAssignmentsColumns(p);
  }

  lemma ProductAssignmentsPieces(p: ProductPatch)
    ensures ProductAssignments(p) ==
      Piece(Name, ProductValue(p, Name)) + Piece(Description, ProductValue(p, Description))
      + Piece(Price, ProductValue(p, Price)) + Piece(Stock, ProductValue(p, Stock))
      + Piece(Category, ProductValue(p, Category))
  {
    var f := c => ProductValue(p, c);
    var c4: seq<Column> := [Category];
    var c3: seq<Column> := [Stock, Category];
    var c2: seq<Column> := [Price, Stock, Category];
    var c1: seq<Column> := [Description, Price, Stock, Category];
    assert c4[1..] == [] && c3[1..] == c4 && c2[1..] == c3 && c1[1..] == c2 && ProductColumns[1..] == c1;
    assert Collect(c4, f) == Piece(Category, f(Category));
    assert Collect(c3, f) == Piece(Stock, f(Stock)) + Collect(c4, f);
    assert Collect(c2, f) == Piece(Price, f(Price)) + Collect(c3, f);
    assert Collect(c1, f) == Piece(Description, f(Description)) + Collect(c2, f);
  }

  lemma UserAssignmentsPieces(p: UserPatch)
    ensures UserAssignments(p) ==
      Piece(Name, UserValue(p, Name)) + Piece(Email, UserValue(p, Email))
      + Piece(Password, UserValue(p, Password)) + Piece(Role, UserValue(p, Role))
  {
    var f := c => UserValue(p, c);
    var c3: seq<Column> := [Role];
    var c2: seq<Column> := [Password, Role];
    var c1: seq<Column> := [Email, Password, Role];
    assert c3[1..] == [] && c2[1..] == c3 && c1[1..] == c2 && UserColumns[1..] == c1;
    assert Collect(c3, f) == Piece(Role, f(Role));
    assert Collect(c2, f) == Piece(Password, f(Password)) + Collect(c3, f);
    assert Collect(c1, f) == Piece(Email, f(Email)) + Collect(c2, f);
  }

  const TouchClause := "updated_at = NOW()"
  const UpdateProducts := "UPDATE products SET "
  const UpdateUsers := "UPDATE users SET "
  const WhereById := " WHERE id = ?"

  /** The `column = ?` text pushed for an assignment. */
  function Clause(x: Assignment): string {
    ColumnName(x.column) + " = ?"
  }

  function Clauses(a: seq<Assignment>): (r: seq<string>)
    ensures |r| == |a| && forall i :: 0 <= i < |a| ==> r[i] == Clause(a[i])
  {
    seq(|a|, i requires 0 <= i < |a| => Clause(a[i]))
  }

  /** The SET list: one clause per assignment, then `updated_at = NOW()`. */
  function SetList(a: seq<Assignment>): seq<string> {
    Clauses(a) + [TouchClause]
  }

  /** `parts.join(sep)` */
  function JoinWith(parts: seq<string>, sep: string): string
    decreases |parts|
  {
    if |parts| == 0 then "" else if |parts| == 1 then parts[0] else parts[0] + sep + JoinWith(parts[1..], sep)
  }

  /** `UPDATE <table> SET <updates joined by ", "> WHERE id = ?`, where `head` is
      `UPDATE <table> SET `. */
  function Statement(head: string, updates: seq<string>): string {
    head + JoinWith(updates, ", ") + WhereById
  }

  /** The statement for a list of assignments. */
  function UpdateStatement(head: string, a: seq<Assignment>): string {
    Statement(head, SetList(a))
  }

  function Values(a: seq<Assignment>): (v: seq<SqlValue>)
    ensures |v| == |a| && forall i :: 0 <= i < |a| ==> v[i] == a[i].value
  {
    seq(|a|, i requires 0 <= i < |a| => a[i].value)
  }

  /** The values array: one per assignment, then the id for the WHERE clause. */
  function BoundValues(a: seq<Assignment>, id: int): seq<SqlValue> {
    Values(a) + [SqlInt(id)]
  }

  /** The number of `?` placeholders in a piece of SQL. */
  function Placeholders(s: string): nat {
    multiset(s)['?']
  }

  function PlaceholdersOfAll(parts: seq<string>): nat
    decreases |parts|
  {
    if |parts| == 0 then 0 else Placeholders(parts[0]) + PlaceholdersOfAll(parts[1..])
  }

  /** The SET list is never empty and always ends with the touch clause. */
  lemma SetListEndsWithTouch(a: seq<Assignment>)
    ensures |SetList(a)| == |a| + 1 >= 1
    ensures SetList(a)[|a|] == TouchClause
    ensures forall i :: 0 <= i < |a| ==> SetList(a)[i] == Clause(a[i])
  {
  }

  /** Joining adds no placeholder when the separator has none. */
  lemma {:induction false} PlaceholdersJoin(parts: seq<string>, sep: string)
    requires Placeholders(sep) == 0
    ensures Placeholders(JoinWith(parts, sep)) == PlaceholdersOfAll(parts)
    decreases |parts|
  {
    if |parts| == 1 {
      assert parts[1..] == [];
    } else if |parts| > 1 {
      PlaceholdersJoin(parts[1..], sep);
      assert JoinWith(parts, sep) == parts[0] + sep + JoinWith(parts[1..], sep);
      assert multiset(parts[0] + sep + JoinWith(parts[1..], sep))
        == multiset(parts[0]) + multiset(sep) + multiset(JoinWith(parts[1..], sep));
    }
  }

  /** A piece of SQL without a `?` character has no placeholder. */
  lemma NoPlaceholder(s: string)
    requires '?' !in s
    ensures Placeholders(s) == 0
  {
  }

  lemma PlaceholdersConcat(x: string, y: string)
    ensures Placeholders(x + y) == Placeholders(x) + Placeholders(y)
  {
    assert multiset(x + y) == multiset(x) + multiset(y);
  }

  lemma OnePlaceholder()
    ensures Placeholders("?") == 1
  {
  }

  lemma WhereByIdPlaceholders()
    ensures Placeholders(WhereById) == 1
  {
    TrailingPlaceholder(WhereById);
  }

  /** A piece of SQL whose only `?` is its last character has one placeholder. */
  lemma TrailingPlaceholder(s: string)
    requires |s| > 0 && s[|s| - 1] == '?' && '?' !in s[..|s| - 1]
    ensures Placeholders(s) == 1
  {
    assert s == s[..|s| - 1] + "?";
    NoPlaceholder(s[..|s| - 1]);
    PlaceholdersConcat(s[..|s| - 1], "?");
    OnePlaceholder();
  }

  lemma ColumnNameHasNoQuestionMark(c: Column)
    ensures '?' !in ColumnName(c)
  {
  }

  /** A clause `column = ?` holds exactly one placeholder. */
  lemma ClausePlaceholders(x: Assignment)
    ensures Placeholders(Clause(x)) == 1
  {
    var name := ColumnName(x.column);
    ColumnNameHasNoQuestionMark(x.column);
    NoPlaceholder(name);
    NoPlaceholder(" = ");
    assert Clause(x) == (name + " = ") + "?";
    PlaceholdersConcat(name, " = ");
    PlaceholdersConcat(name + " = ", "?");
    OnePlaceholder();
  }

  lemma {:induction false} SetListPlaceholders(a: seq<Assignment>)
    ensures PlaceholdersOfAll(SetList(a)) == |a|
    decreases |a|
  {
    if |a| == 0 {
      TouchOnlyPlaceholders();
    } else {
      SetListPlaceholders(a[1..]);
      SetListStep(a);
      ClausePlaceholders(a[0]);
    }
  }

  lemma TouchOnlyPlaceholders()
    ensures PlaceholdersOfAll(SetList([])) == 0
  {
    var r := SetList([]);
    assert r == [TouchClause] && r[1..] == [];
    NoPlaceholder(TouchClause);
  }

  lemma SetListStep(a: seq<Assignment>)
    requires |a| > 0
    ensures PlaceholdersOfAll(SetList(a)) == Placeholders(Clause(a[0])) + PlaceholdersOfAll(SetList(a[1..]))
  {
    var r := SetList(a);
    assert Clauses(a)[1..] == Clauses(a[1..]);
    assert r[0] == Clause(a[0]) && r[1..] == SetList(a[1..]);
  }

  /** The SET list carries one placeholder per assignment. */
  lemma SetListJoinPlaceholders(a: seq<Assignment>)
    ensures Placeholders(JoinWith(SetList(a), ", ")) == |a|
  {
    NoPlaceholder(", ");
    PlaceholdersJoin(SetList(a), ", ");
    SetListPlaceholders(a);
  }

  lemma FramePlaceholders(head: string, body: string)
    ensures Placeholders(head + body + WhereById) == Placeholders(head) + Placeholders(body) + 1
  {
    WhereByIdPlaceholders();
    PlaceholdersConcat(head, body);
    PlaceholdersConcat(head + body, WhereById);
  }

  /** Every `?` in the statement, the WHERE one included, has exactly one value. */
  lemma StatementPlaceholders(head: string, a: seq<Assignment>, id: int)
    requires '?' !in head
    ensures Placeholders(UpdateStatement(head, a)) == |BoundValues(a, id)|
  {
    NoPlaceholder(head);
    SetListJoinPlaceholders(a);
    FramePlaceholders(head, JoinWith(SetList(a), ", "));
  }

  lemma HeadsHaveNoPlaceholder()
    ensures '?' !in UpdateProducts && '?' !in UpdateUsers
  {
  }

  /** Both builders' statements carry exactly one value per placeholder. */
  lemma BuiltStatementsBalanced(id: int, product: ProductPatch, user: UserPatch)
    ensures Placeholders(UpdateStatement(UpdateProducts, ProductAssignments(product)))
      == |BoundValues(ProductAssignments(product), id)|
    ensures Placeholders(UpdateStatement(UpdateUsers, UserAssignments(user)))
      == |BoundValues(UserAssignments(user), id)|
  {
    HeadsHaveNoPlaceholder();
    StatementPlaceholders(UpdateProducts, ProductAssignments(product), id);
    StatementPlaceholders(UpdateUsers, UserAssignments(user), id);
  }

  lemma ClausesSnoc(a: seq<Assignment>, x: Assignment)
    ensures Clauses(a + [x]) == Clauses(a) + [Clause(x)]
    ensures Values(a + [x]) == Values(a) + [x.value]
  {
  }

  /** `updateProduct`'s statement builder: `updates` and `values` grow by `push`, the
      touch clause and the id come last (`BuiltStatementsBalanced` shows that the
      statement has one value per `?`). */
  method PushProductUpdates(data: ProductPatch) returns (updates: seq<string>, values: seq<SqlValue>)
    ensures updates == Clauses(ProductAssignments(data))
    ensures values == Values(ProductAssignments(data))
  {
    updates := [];
    values := [];
    ghost var pushed: seq<Assignment> := [];
    assert updates == Clauses(pushed) && values == Values(pushed);
    ghost var expected := Piece(Name, ProductValue(data, Name));
    if Truthy(data.name) {
      ghost var x := Assignment(Name, SqlText(data.name.value));
      assert Clauses(pushed + [x]) == updates + ["name = ?"] && Values(pushed + [x]) == values + [SqlText(data.name.value)] by {
        ClausesSnoc(pushed, x);
        assert ColumnName(Name) + " = ?" == "name = ?";
      }
      updates := updates + ["name = ?"];
      values := values + [SqlText(data.name.value)];
      pushed := pushed + [x];
    }
    assert pushed == expected;
    assert updates == Clauses(pushed) && values == Values(pushed);
    expected := pushed + Piece(Description, ProductValue(data, Description));
    if Truthy(data.description) {
      ghost var x := Assignment(Description, SqlText(data.description.value));
      assert Clauses(pushed + [x]) == updates + ["description = ?"] && Values(pushed + [x]) == values + [SqlText(data.description.value)] by {
        ClausesSnoc(pushed, x);
        assert ColumnName(Description) + " = ?" == "description = ?";
      }
      updates := updates + ["description = ?"];
      values := values + [SqlText(data.description.value)];
      pushed := pushed + [x];
    }
    assert pushed == expected;
    assert updates == Clauses(pushed) && values == Values(pushed);
    expected := pushed + Piece(Price, ProductValue(data, Price));
    if data.price.Some? {
      ghost var x := Assignment(Price, SqlNumber(data.price.value));
      assert Clauses(pushed + [x]) == updates + ["price = ?"] && Values(pushed + [x]) == values + [SqlNumber(data.price.value)] by {
        ClausesSnoc(pushed, x);
        assert ColumnName(Price) + " = ?" == "price = ?";
      }
      updates := updates + ["price = ?"];
      values := values + [SqlNumber(data.price.value)];
      pushed := pushed + [x];
    }
    assert pushed == expected;
    assert updates == Clauses(pushed) && values == Values(pushed);
    expected := pushed + Piece(Stock, ProductValue(data, Stock));
    if data.stock.Some? {
      ghost var x := Assignment(Stock, SqlInt(data.stock.value));
      assert Clauses(pushed + [x]) == updates + ["stock = ?"] && Values(pushed + [x]) == values + [SqlInt(data.stock.value)] by {
        ClausesSnoc(pushed, x);
        assert ColumnName(Stock) + " = ?" == "stock = ?";
      }
      updates := updates + ["stock = ?"];
      values := values + [SqlInt(data.stock.value)];
      pushed := pushed + [x];
    }
    assert pushed == expected;
    assert updates == Clauses(pushed) && values == Values(pushed);
    expected := pushed + Piece(Category, ProductValue(data, Category));
    if Truthy(data.category) {
      ghost var x := Assignment(Category, SqlText(data.category.value));
      assert Clauses(pushed + [x]) == updates + ["category = ?"] && Values(pushed + [x]) == values + [SqlText(data.category.value)] by {
        ClausesSnoc(pushed, x);
        assert ColumnName(Category) + " = ?" == "category = ?";
      }
      updates := updates + ["category = ?"];
      values := values + [SqlText(data.category.value)];
      pushed := pushed + [x];
    }
    assert pushed == expected;
    assert updates == Clauses(pushed) && values == Values(pushed);
    assert pushed == ProductAssignments(data) by {
      ProductAssignmentsPieces(data);
    }
  }

  method BuildProductUpdate(id: int, data: ProductPatch) returns (sql: string, values: seq<SqlValue>)
    ensures sql == UpdateStatement(UpdateProducts, ProductAssignments(data))
    ensures values == BoundValues(ProductAssignments(data), id)
  {
    var updates;
    updates, values := PushProductUpdates(data);
    updates := updates + [TouchClause];
    values := values + [SqlInt(id)];
    sql := Statement(UpdateProducts, updates);
  }


  /** `updateUser`'s statement builder, the same shape over name, email, password and role;
      the password is hashed before it is pushed. */
  method PushUserUpdates(data: UserPatch) returns (updates: seq<string>, values: seq<SqlValue>)
    ensures updates == Clauses(UserAssignments(data))
    ensures values == Values(UserAssignments(data))
  {
    updates := [];
    values := [];
    ghost var pushed: seq<Assignment> := [];
    assert updates == Clauses(pushed) && values == Values(pushed);
    ghost var expected := Piece(Name, UserValue(data, Name));
    if Truthy(data.name) {
      ghost var x := Assignment(Name, SqlText(data.name.value));
      assert Clauses(pushed + [x]) == updates + ["name = ?"] && Values(pushed + [x]) == values + [SqlText(data.name.value)] by {
        ClausesSnoc(pushed, x);
        assert ColumnName(Name) + " = ?" == "name = ?";
      }
      updates := updates + ["name = ?"];
      values := values + [SqlText(data.name.value)];
      pushed := pushed + [x];
    }
    assert pushed == expected;
    assert updates == Clauses(pushed) && values == Values(pushed);
    expected := pushed + Piece(Email, UserValue(data, Email));
    if Truthy(data.email) {
      ghost var x := Assignment(Email, SqlText(data.email.value));
      assert Clauses(pushed + [x]) == updates + ["email = ?"] && Values(pushed + [x]) == values + [SqlText(data.email.value)] by {
        ClausesSnoc(pushed, x);
        assert ColumnName(Email) + " = ?" == "email = ?";
      }
      updates := updates + ["email = ?"];
      values := values + [SqlText(data.email.value)];
      pushed := pushed + [x];
    }
    assert pushed == expected;
    assert updates == Clauses(pushed) && values == Values(pushed);
    expected := pushed + Piece(Password, UserValue(data, Password));
    if TruthySecret(data.password) {
      ghost var x := Assignment(Password, SqlSecret(Hash(data.password.value)));
      assert Clauses(pushed + [x]) == updates + ["password = ?"] && Values(pushed + [x]) == values + [SqlSecret(Hash(data.password.value))] by {
        ClausesSnoc(pushed, x);
        assert ColumnName(Password) + " = ?" == "password = ?";
      }
      updates := updates + ["password = ?"];
      values := values + [SqlSecret(Hash(data.password.value))];
      pushed := pushed + [x];
    }
    assert pushed == expected;
    assert updates == Clauses(pushed) && values == Values(pushed);
    expected := pushed + Piece(Role, UserValue(data, Role));
    if Truthy(data.role) {
      ghost var x := Assignment(Role, SqlText(data.role.value));
      assert Clauses(pushed + [x]) == updates + ["role = ?"] && Values(pushed + [x]) == values + [SqlText(data.role.value)] by {
        ClausesSnoc(pushed, x);
        assert ColumnName(Role) + " = ?" == "role = ?";
      }
      updates := updates + ["role = ?"];
      values := values + [SqlText(data.role.value)];
      pushed := pushed + [x];
    }
    assert pushed == expected;
    assert updates == Clauses(pushed) && values == Values(pushed);
    assert pushed == UserAssignments(data) by {
      UserAssignmentsPieces(data);
    }
  }

  method BuildUserUpdate(id: int, data: UserPatch) returns (sql: string, values: seq<SqlValue>)
    ensures sql == UpdateStatement(UpdateUsers, UserAssignments(data))
    ensures values == BoundValues(UserAssignments(data), id)
  {
    var updates;
    updates, values := PushUserUpdates(data);
    updates := updates + [TouchClause];
    values := values + [SqlInt(id)];
    sql := Statement(UpdateUsers, updates);
  }


  // ---------------------------------------------------------------- effect of the statements

  /** What `SET column = value` does to a users row. */
  function SetUserColumn(u: User, x: Assignment): User {
    match (x.column, x.value)
    case (Name, SqlText(t)) => u.(name := t)
    case (Email, SqlText(t)) => u.(email := t)
    case (Password, SqlSecret(s)) => u.(password := s)
    case (Role, SqlText(t)) => u.(role := t)
    case _ => u
  }

  /** What `SET column = value` does to a products row. */
  function SetProductColumn(r: ProductRow, x: Assignment): ProductRow {
    match (x.column, x.value)
    case (Name, SqlText(t)) => r.(name := t)
    case (Description, SqlText(t)) => r.(description := t)
    case (Price, SqlNumber(n)) => r.(price := n)
    case (Stock, SqlInt(n)) => r.(stock := n)
    case (Category, SqlText(t)) => r.(category := t)
    case _ => r
  }

  /** The assignments of a SET list applied left to right. */
  function AssignUser(u: User, a: seq<Assignment>): User
    decreases |a|
  {
    if |a| == 0 then u else AssignUser(SetUserColumn(u, a[0]), a[1..])
  }

  function AssignProduct(r: ProductRow, a: seq<Assignment>): ProductRow
    decreases |a|
  {
    if |a| == 0 then r else AssignProduct(SetProductColumn(r, a[0]), a[1..])
  }

  lemma {:induction false} AssignUserConcat(u: User, a: seq<Assignment>, b: seq<Assignment>)
    ensures AssignUser(u, a + b) == AssignUser(AssignUser(u, a), b)
    decreases |a|
  {
    if |a| == 0 {
      assert a + b == b;
    } else {
      assert (a + b)[1..] == a[1..] + b;
      AssignUserConcat(SetUserColumn(u, a[0]), a[1..], b);
    }
  }

  lemma {:induction false} AssignProductConcat(r: ProductRow, a: seq<Assignment>, b: seq<Assignment>)
    ensures AssignProduct(r, a + b) == AssignProduct(AssignProduct(r, a), b)
    decreases |a|
  {
    if |a| == 0 {
      assert a + b == b;
    } else {
      assert (a + b)[1..] == a[1..] + b;
      AssignProductConcat(SetProductColumn(r, a[0]), a[1..], b);
    }
  }

  /** The intended field-wise update of a user: a field changes exactly when the patch's
      value for it is truthy, and a new password is stored as its hash. */
  function MergeUser(u: User, p: UserPatch): User {
    u.(name := if Truthy(p.name) then p.name.value else u.name,
       email := if Truthy(p.email) then p.email.value else u.email,
       password := if TruthySecret(p.password) then Hash(p.password.value) else u.password,
       role := if Truthy(p.role) then p.role.value else u.role)
  }

  /** The intended field-wise update of a product: name, description and category change
      when truthy, price and stock whenever given (0 included). */
  function MergeProduct(r: ProductRow, p: ProductPatch): ProductRow {
    r.(name := if Truthy(p.name) then p.name.value else r.name,
       description := if Truthy(p.description) then p.description.value else r.description,
       price := if p.price.Some? then p.price.value else r.price,
       stock := if p.stock.Some? then p.stock.value else r.stock,
       category := if Truthy(p.category) then p.category.value else r.category)
  }

  /** Running the UPDATE that `updateUser` builds performs exactly the field-wise merge. */
  lemma UserStatementEffect(u: User, p: UserPatch)
    ensures AssignUser(u, UserAssignments(p)) == MergeUser(u, p)
  {
    UserAssignmentsPieces(p);
    var p1, p2 := Piece(Name, UserValue(p, Name)), Piece(Email, UserValue(p, Email));
    var p3, p4 := Piece(Password, UserValue(p, Password)), Piece(Role, UserValue(p, Role));
    AssignUserConcat(u, p1 + p2 + p3, p4);
    AssignUserConcat(u, p1 + p2, p3);
    AssignUserConcat(u, p1, p2);
    var u1 := AssignUser(u, p1);
    AssignUserPiece(u, Name, UserValue(p, Name));
    var u2 := AssignUser(u1, p2);
    AssignUserPiece(u1, Email, UserValue(p, Email));
    var u3 := AssignUser(u2, p3);
    AssignUserPiece(u2, Password, UserValue(p, Password));
    AssignUserPiece(u3, Role, UserValue(p, Role));
  }

  lemma AssignUserPiece(u: User, c: Column, v: Option<SqlValue>)
    ensures AssignUser(u, Piece(c, v)) == if v.Some? then SetUserColumn(u, Assignment(c, v.value)) else u
  {
    if v.Some? {
      assert Piece(c, v)[1..] == [];
    }
  }

  lemma AssignProductPiece(r: ProductRow, c: Column, v: Option<SqlValue>)
    ensures AssignProduct(r, Piece(c, v)) == if v.Some? then SetProductColumn(r, Assignment(c, v.value)) else r
  {
    if v.Some? {
      assert Piece(c, v)[1..] == [];
    }
  }

  /** Running the UPDATE that `updateProduct` builds performs exactly the field-wise merge. */
  lemma ProductStatementEffect(r: ProductRow, p: ProductPatch)
    ensures AssignProduct(r, ProductAssignments(p)) == MergeProduct(r, p)
  {
    ProductAssignmentsPieces(p);
    var p1, p2 := Piece(Name, ProductValue(p, Name)), Piece(Description, ProductValue(p, Description));
    var p3, p4 := Piece(Price, ProductValue(p, Price)), Piece(Stock, ProductValue(p, Stock));
    var p5 := Piece(Category, ProductValue(p, Category));
    AssignProductConcat(r, p1 + p2 + p3 + p4, p5);
    AssignProductConcat(r, p1 + p2 + p3, p4);
    AssignProductConcat(r, p1 + p2, p3);
    AssignProductConcat(r, p1, p2);
    var r1 := AssignProduct(r, p1);
    AssignProductPiece(r, Name, ProductValue(p, Name));
    var r2 := AssignProduct(r1, p2);
    AssignProductPiece(r1, Description, ProductValue(p, Description));
    var r3 := AssignProduct(r2, p3);
    AssignProductPiece(r2, Price, ProductValue(p, Price));
    var r4 := AssignProduct(r3, p4);
    AssignProductPiece(r3, Stock, ProductValue(p, Stock));
    AssignProductPiece(r4, Category, ProductValue(p, Category));
  }

  // ---------------------------------------------------------------- the tables

  /** `Omit<User, 'id' | 'createdAt' | 'updatedAt'>` as `createUser` receives it. */
  datatype NewUser = NewUser(name: string, email: string, password: Secret, role: Option<string>)

  /** `Omit<Product, 'id' | 'createdAt' | 'updatedAt'>` as `createProduct` receives it. */
  datatype NewProduct = NewProduct(name: string, description: string, price: real, stock: int, category: string)

  /** `getProductsWithPagination`'s result. */
  datatype Page = Page(products: seq<ApiProduct>, total: nat, page: int, totalPages: Ceil)

  function UserId(u: User): int {
    u.id
  }

  function ProductId(r: ProductRow): int {
    r.id
  }

  function ApiRows(rows: seq<ProductRow>): (r: seq<ApiProduct>)
    ensures |r| == |rows| && forall i :: 0 <= i < |rows| ==> r[i] == ToApi(rows[i])
  {
    seq(|rows|, i requires 0 <= i < |rows| => ToApi(rows[i]))
  }

  /** The first user with that email: `SELECT * FROM users WHERE email = ?`. */
  function UserWithEmail(users: seq<User>, email: string): (r: Option<User>)
    ensures r.Some? ==> r.value in users && r.value.email == email
    ensures r.None? <==> forall i :: 0 <= i < |users| ==> users[i].email != email
  {
    match FindFirst(users, (u: User) => u.email == email)
    case None => None
    case Some(i) => Some(users[i])
  }

  /** Once a user with a fresh email is appended, looking that email up finds it. */
  lemma UserWithEmailAppend(users: seq<User>, u: User)
    requires UserWithEmail(users, u.email).None?
    ensures UserWithEmail(users + [u], u.email) == Some(u)
  {
    FindFirstAppend(users, u, (v: User) => v.email == u.email);
  }

  /** The two tables the helpers read and write. Auto-increment keeps each table in
      ascending id order, every id below the next one to be generated. */
  class Db {
    var users: seq<User>
    var products: seq<ProductRow>
    var nextUserId: int
    var nextProductId: int

    ghost predicate Valid()
      reads this
    {
      && IncreasingBy(users, UserId) && (forall i :: 0 <= i < |users| ==> users[i].id < nextUserId)
      && IncreasingBy(products, ProductId) && (forall i :: 0 <= i < |products| ==> products[i].id < nextProductId)
    }

    constructor ()
      ensures Valid() && users == [] && products == [] && nextUserId == 1 && nextProductId == 1
    {
      users := [];
      products := [];
      nextUserId := 1;
      nextProductId := 1;
    }

    /** `findUserById`: the row with that id, or null. */
    function FindUserById(id: int): (r: Option<User>)
      reads this
      ensures r.Some? ==> r.value in users && r.value.id == id
      ensures r.None? ==> forall i :: 0 <= i < |users| ==> users[i].id != id
    {
      match FindFirst(users, (u: User) => u.id == id)
      case None => None
      case Some(i) => Some(users[i])
    }

    /** `findUserByEmail`: the first row with that email, or null. */
    function FindUserByEmail(email: string): (r: Option<User>)
      reads this
      ensures r.Some? ==> r.value in users && r.value.email == email
      ensures r.None? ==> forall i :: 0 <= i < |users| ==> users[i].email != email
    {
      UserWithEmail(users, email)
    }

    /** `findProductById`: the row with that id without user_id, or null. */
    function FindProductById(id: int): (r: Option<ApiProduct>)
      reads this
      ensures r.Some? ==> exists i :: 0 <= i < |products| && products[i].id == id && r.value == ToApi(products[i])
      ensures r.None? ==> forall i :: 0 <= i < |products| ==> products[i].id != id
    {
      match FindFirst(products, (r: ProductRow) => r.id == id)
      case None => None
      case Some(i) => Some(ToApi(products[i]))
    }

    /** `getAllUsers` and `getAllProducts`: `ORDER BY id DESC`. */
    function AllUsers(): (r: seq<User>)
      reads this
      requires Valid()
      ensures |r| == |users|
      ensures forall i :: 0 <= i < |r| ==> r[i] == users[|users| - 1 - i]
      ensures forall i, j :: 0 <= i < j < |r| ==> r[i].id > r[j].id
    {
      Reverse(users)
    }

    function AllProducts(): (r: seq<ApiProduct>)
      reads this
      requires Valid()
      ensures |r| == |products|
      ensures forall i :: 0 <= i < |r| ==> r[i] == ToApi(products[|products| - 1 - i])
      ensures forall i, j :: 0 <= i < j < |r| ==> r[i].id > r[j].id
    {
      Reverse(ApiRows(products))
    }

    /** `createUser`: the password is hashed, the role defaults to 'user', the database
        sets the id and both timestamps, and the row is read back by id. */
    method CreateUser(data: NewUser, now: int) returns (u: User)
      requires Valid()
      modifies this
      ensures Valid()
      ensures u == User(old(nextUserId), data.name, data.email, Hash(data.password),
                        RoleOrDefault(data.role), now, now)
      ensures users == old(users) + [u] && nextUserId == old(nextUserId) + 1
      ensures products == old(products) && nextProductId == old(nextProductId)
    {
      var hashed := Hash(data.password);
      var row := User(nextUserId, data.name, data.email, hashed, RoleOrDefault(data.role), now, now);
      users := users + [row];
      nextUserId := nextUserId + 1;
      var found := FindUserById(row.id);
      assert users[|users| - 1] == row;
      assert found.Some? by {
        assert users[|users| - 1].id == row.id;
      }
      u := found.value;
    }

    /** `updateUser`: builds and runs the UPDATE, then reads the row back (null when no
        row has that id). */
    method UpdateUser(id: int, data: UserPatch, now: int) returns (r: Option<User>)
      requires Valid()
      modifies this
      ensures Valid()
      ensures |users| == |old(users)|
      ensures forall i :: 0 <= i < |users| ==>
        users[i] == if old(users)[i].id == id then MergeUser(old(users)[i], data).(updatedAt := now) else old(users)[i]
      ensures r == FindUserById(id)
      ensures r.None? <==> forall i :: 0 <= i < |users| ==> old(users)[i].id != id
      ensures products == old(products) && nextUserId == old(nextUserId) && nextProductId == old(nextProductId)
    {
      var sql, values := BuildUserUpdate(id, data);
      var before := users;
      users := seq(|before|, i requires 0 <= i < |before| =>
        if before[i].id == id then AssignUser(before[i], UserAssignments(data)).(updatedAt := now) else before[i]);
      forall i | 0 <= i < |users| && before[i].id == id
        ensures users[i] == MergeUser(before[i], data).(updatedAt := now)
      {
        UserStatementEffect(before[i], data);
      }
      r := FindUserById(id);
    }

    /** `deleteUser`: `DELETE ... WHERE id = ?`, true iff a row was removed. */
    method DeleteUser(id: int) returns (deleted: bool)
      requires Valid()
      modifies this
      ensures Valid()
      ensures users == Filter(old(users), (u: User) => u.id != id)
      ensures deleted <==> exists i :: 0 <= i < |old(users)| && old(users)[i].id == id
      ensures products == old(products) && nextUserId == old(nextUserId) && nextProductId == old(nextProductId)
    {
      var before := users;
      users := Filter(users, (u: User) => u.id != id);
      FilterIncreasing(before, (u: User) => u.id != id, UserId);
      FilterDrops(before, (u: User) => u.id != id);
      deleted := |users| < |before|;
    }
  
    /** `createProduct`: every product is stored with user_id 1; the database sets the id
        and both timestamps, and the row is read back by id. */
    method CreateProduct(data: NewProduct, now: int) returns (p: ApiProduct)
      requires Valid()
      modifies this
      ensures Valid()
      ensures var row := ProductRow(old(nextProductId), data.name, data.description, data.price,
                                    data.stock, data.category, 1, now, now);
        products == old(products) + [row] && p == ToApi(row)
      ensures nextProductId == old(nextProductId) + 1
      ensures users == old(users) && nextUserId == old(nextUserId)
    {
      var row := ProductRow(nextProductId, data.name, data.description, data.price,
                            data.stock, data.category, 1, now, now);
      products := products + [row];
      nextProductId := nextProductId + 1;
      var found := FindProductById(row.id);
      assert products[|products| - 1] == row;
      p := found.value;
    }

    /** `updateProduct`: builds and runs the UPDATE, then reads the row back (null when no
        row has that id). */
    method UpdateProduct(id: int, data: ProductPatch, now: int) returns (r: Option<ApiProduct>)
      requires Valid()
      modifies this
      ensures Valid()
      ensures |products| == |old(products)|
      ensures forall i :: 0 <= i < |products| ==>
        products[i] == if old(products)[i].id == id then MergeProduct(old(products)[i], data).(updatedAt := now)
                       else old(products)[i]
      ensures r == FindProductById(id)
      ensures r.None? <==> forall i :: 0 <= i < |products| ==> old(products)[i].id != id
      ensures users == old(users) && nextUserId == old(nextUserId) && nextProductId == old(nextProductId)
    {
      var sql, values := BuildProductUpdate(id, data);
      var before := products;
      products := seq(|before|, i requires 0 <= i < |before| =>
        if before[i].id == id then AssignProduct(before[i], ProductAssignments(data)).(updatedAt := now)
        else before[i]);
      forall i | 0 <= i < |products| && before[i].id == id
        ensures products[i] == MergeProduct(before[i], data).(updatedAt := now)
      {
        ProductStatementEffect(before[i], data);
      }
      r := FindProductById(id);
    }

    /** `deleteProduct`: `DELETE ... WHERE id = ?`, true iff a row was removed. */
    method DeleteProduct(id: int) returns (deleted: bool)
      requires Valid()
      modifies this
      ensures Valid()
      ensures products == Filter(old(products), (r: ProductRow) => r.id != id)
      ensures deleted <==> exists i :: 0 <= i < |old(products)| && old(products)[i].id == id
      ensures users == old(users) && nextUserId == old(nextUserId) && nextProductId == old(nextProductId)
    {
      var before := products;
      products := Filter(products, (r: ProductRow) => r.id != id);
      FilterIncreasing(before, (r: ProductRow) => r.id != id, ProductId);
      FilterDrops(before, (r: ProductRow) => r.id != id);
      deleted := |products| < |before|;
    }

    /** `getProductsWithPagination`: a COUNT(*) and a `LIMIT limit OFFSET (page - 1) * limit`
        query over the rows in descending id order. The `failed` parameter stands for a
        connection or query error; MySQL also rejects a negative LIMIT or OFFSET. Any
        failure yields an empty page, total 0 and totalPages 0, with the page echoed. */
    function PageOfProducts(page: int, limit: int, failed: bool): (r: Page)
      reads this
      requires Valid()
      ensures r.page == page
      ensures failed || limit < 0 || (page - 1) * limit < 0 ==> r == Page([], 0, page, Finite(0))
      ensures !(failed || limit < 0 || (page - 1) * limit < 0) ==> (
        var offset := (page - 1) * limit;
        && r.total == |products|
        && r.totalPages == CeilDiv(|products|, Int(limit))
        && |r.products| == (if offset >= |products| then 0
                            else if limit < |products| - offset then limit else |products| - offset)
        && forall k :: 0 <= k < |r.products| ==> r.products[k] == AllProducts()[offset + k])
    {
      var offset := (page - 1) * limit;
      if failed || limit < 0 || offset < 0 then Page([], 0, page, Finite(0))
      else
        var all := AllProducts();
        var from := if offset < |all| then offset else |all|;
        var to := if offset + limit < |all| then offset + limit else |all|;
        Page(all[from..to], |all|, page, CeilDiv(|all|, Int(limit)))
    }
  }

  /** With a positive limit and no failure, a page from 1 on holds products exactly when
      it is at most totalPages. */
  lemma PageNonEmptyIffInRange(db: Db, page: int, limit: int)
    requires db.Valid() && limit > 0 && page >= 1
    ensures var r := db.PageOfProducts(page, limit, false);
      |r.products| > 0 <==> page <= r.totalPages.n
  {
    PageStartsInside(|db.products|, limit, page);
  }
}
