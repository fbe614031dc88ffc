/**
 * UsuarioRepository: the users collection, keyed by user id. A read gives a
 * fresh object graph built from the stored document; a save stores the
 * object's current state under its id.
 */
module Repositories {
  import opened Wrappers
  import opened Usuario

  class UsuarioRepository {
    var usuarios: map<string, UsuarioDoc>

    /** Every document is stored under its own id. */
    ghost predicate Valid()
      reads this
    {
      forall k :: k in usuarios ==> usuarios[k].perfil.id == k
    }

    constructor (usuarios: map<string, UsuarioDoc>)
      ensures this.usuarios == usuarios
    {
      this.usuarios := usuarios;
    }

    /** findById(id): empty for an unknown id, otherwise a fresh copy of the stored user. */
    method FindById(id: string) returns (r: Option<Usuario>)
      ensures r.None? <==> id !in usuarios
      ensures r.Some? ==> fresh(r.value) && r.value.Valid() && r.value.Doc() == usuarios[id]
      ensures r.Some? ==> forall x :: x in r.value.historialDeDias ==> fresh(x)
    {
      if id !in usuarios {
        return None;
      }
      var u := new Usuario.Load(usuarios[id]);
      r := Some(u);
    }

    /** save(u): an upsert of the user's current state under its id. */
    method Save(u: Usuario)
      modifies this
      ensures usuarios == old(usuarios)[u.id := old(u.Doc())]
      ensures old(Valid()) ==> Valid()
    {
      usuarios := usuarios[u.id := u.Doc()];
    }
  }
}
