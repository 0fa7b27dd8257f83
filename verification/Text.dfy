// The standard-library text helpers the operator relies on.
module Text {
  datatype Option<+T> = None | Some(value: T)

  // strconv.Itoa
  function Itoa(n: int): (s: string)
    ensures s != ""
    decreases n < 0, if n < 0 then -n else n
  {
    if n < 0 then "-" + Itoa(-n)
    else if n < 10 then [DigitChar(n)]
    else Itoa(n / 10) + [DigitChar(n % 10)]
  }

  function DigitChar(d: int): char
    requires 0 <= d < 10
  {
    "0123456789"[d]
  }

  // The number a decimal numeral stands for.
  function Numeral(s: string): int {
    if s == "" then 0
    else if s[0] == '-' then -Numeral(s[1..])
    else 10 * Numeral(s[..|s| - 1]) + (s[|s| - 1] as int - '0' as int)
  }

  lemma {:induction false} ItoaReads(n: int)
    ensures Numeral(Itoa(n)) == n && (n >= 0 ==> Itoa(n)[0] != '-')
    decreases n < 0, if n < 0 then -n else n
  {
    var s := Itoa(n);
    if n < 0 {
      ItoaReads(-n);
      assert s[1..] == Itoa(-n);
    } else if n < 10 {
      assert s[..0] == "" && DigitChar(n) as int == '0' as int + n;
    } else {
      ItoaReads(n / 10);
      assert s[..|s| - 1] == Itoa(n / 10) && s[0] == Itoa(n / 10)[0];
      assert s[|s| - 1] == DigitChar(n % 10) && DigitChar(n % 10) as int == '0' as int + n % 10;
    }
  }

  lemma ItoaInjective(m: int, n: int)
    requires Itoa(m) == Itoa(n)
    ensures m == n
  {
    ItoaReads(m);
    ItoaReads(n);
  }

  // strings.Join
  function Join(parts: seq<string>, sep: string): string {
    if parts == [] then ""
    else if |parts| == 1 then parts[0]
    else parts[0] + sep + Join(parts[1..], sep)
  }

  // Lists that follow each other, with the separator between.
  lemma {:induction false} JoinAppends(a: seq<string>, b: seq<string>, sep: string)
    requires a != [] && b != []
    ensures Join(a + b, sep) == Join(a, sep) + sep + Join(b, sep)
  {
    assert (a + b)[1..] == a[1..] + b;
    if |a| > 1 {
      JoinAppends(a[1..], b, sep);
    } else {
      assert a[1..] + b == b;
    }
  }

  lemma EmptyTogether(a: string, b: string, u: string, v: string, sep: char)
    requires sep !in a && sep !in b
    requires (u == "" || u[0] == sep) && (v == "" || v[0] == sep) && a + u == b + v
    ensures a == "" <==> b == ""
  {
    assert a != "" ==> (a + u)[0] == a[0] && a[0] in a;
    assert b != "" ==> (b + v)[0] == b[0] && b[0] in b;
  }

  // Texts that end in the same list of parts: the head ends at the first separator.
  lemma {:induction false} HeadsAgree(a: string, b: string, u: string, v: string, sep: char)
    requires sep !in a && sep !in b
    requires (u == "" || u[0] == sep) && (v == "" || v[0] == sep) && a + u == b + v
    ensures a == b && u == v
  {
    EmptyTogether(a, b, u, v, sep);
    if a == "" {
      assert a + u == u && b + v == v;
    } else {
      assert (a + u)[0] == a[0] && (b + v)[0] == b[0];
      assert (a + u)[1..] == a[1..] + u && (b + v)[1..] == b[1..] + v;
      HeadsAgree(a[1..], b[1..], u, v, sep);
      assert a == [a[0]] + a[1..] && b == [b[0]] + b[1..];
    }
  }

  // A list of parts free of the separator is recovered from its joined text.
  lemma {:induction false} JoinInjective(p: seq<string>, q: seq<string>, sep: char)
    requires p != [] && q != []
    requires forall x :: x in p || x in q ==> sep !in x
    requires Join(p, [sep]) == Join(q, [sep])
    ensures p == q
  {
    var u := if |p| == 1 then "" else [sep] + Join(p[1..], [sep]);
    var v := if |q| == 1 then "" else [sep] + Join(q[1..], [sep]);
    assert Join(p, [sep]) == p[0] + u && Join(q, [sep]) == q[0] + v;
    HeadsAgree(p[0], q[0], u, v, sep);
    assert |p| == 1 <==> |q| == 1;
    if |p| > 1 {
      assert u[1..] == Join(p[1..], [sep]) && v[1..] == Join(q[1..], [sep]);
      JoinInjective(p[1..], q[1..], sep);
      assert p == [p[0]] + p[1..] && q == [q[0]] + q[1..];
    }
  }
}
