/** The class `Environment` of Environment.py: one table from names to
    values, updated in place.  `define` inserts or overwrites, `assign` only
    overwrites, and `get` only reads. */
module Environments {
  import opened Support

  /** The message `get` and `assign` raise for a name that is not defined. */
  function UndefinedName(name: string): string
  {
    "Variable no definida: '" + name + "'."
  }

  class Environment<V> {
    var values: map<string, V>

    constructor ()
      ensures values == map[]
    {
      values := map[];
    }

    /** `define(nombre, valor)`: afterwards the name holds the value, whether
        it was there before or not; no other entry changes. */
    method Define(nombre: string, valor: V)
      modifies this
      ensures values == old(values)[nombre := valor]
      ensures nombre in values && values[nombre] == valor
      ensures values.Keys == old(values).Keys + {nombre}
      ensures forall k | k in old(values) && k != nombre :: values[k] == old(values)[k]
    {
      values := values[nombre := valor];
    }

    /** `get(nombre)`: the value under the name, or the error; it never
        changes the table, so it never adds a key. */
    method Get(nombre: string) returns (r: Result<V, string>)
      ensures r.Success? <==> nombre in values
      ensures r.Success? ==> r.value == values[nombre]
      ensures r.Failure? ==> r.error == UndefinedName(nombre)
    {
      if nombre in values {
        return Success(values[nombre]);
      }
      return Failure(UndefinedName(nombre));
    }

    /** `assign(nombre, valor)`: overwrites a defined name; an undefined one
        raises and is not created. */
    method Assign(nombre: string, valor: V) returns (r: Outcome<string>)
      modifies this
      ensures r.Pass? <==> nombre in old(values)
      ensures r.Pass? ==> values == old(values)[nombre := valor]
      ensures r.Fail? ==> values == old(values) && r.error == UndefinedName(nombre)
      ensures values.Keys == old(values).Keys
      ensures forall k | k in old(values) && k != nombre :: values[k] == old(values)[k]
    {
      if nombre in values {
        values := values[nombre := valor];
        return Pass;
      }
      return Fail(UndefinedName(nombre));
    }
  }
}
