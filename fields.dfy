/** The field names the mirrored documents use. Each constructor stands for the
    key written after it; a document is a map from these names to values. */
module Fields {

  datatype Field =
    | DjangoId                 // 'django_id'
    | Name                     // 'name'
    | LastName                 // 'last_name'
    | FullName                 // 'full_name'
    | Email                    // 'email'
    | Age                      // 'age'
    | Gender                   // 'gender'
    | GenderDisplay            // 'gender_display'
    | Phone                    // 'phone'
    | Role                     // 'role'
    | RoleDisplay              // 'role_display'
    | UpdatedAt                // 'updated_at'
    | CreatedAt                // 'created_at'
    | SyncVersion              // 'sync_version'
    | DoctorProfile            // 'doctor_profile'
    | DoctorProfileIncomplete  // 'doctor_profile_incomplete'
    | DjangoDoctorId           // 'django_doctor_id'
    | Specialty                // 'specialty'
    | SpecialtyDisplay         // 'specialty_display'
    | Office                   // 'office'
    | DjangoOfficeId           // 'django_office_id'
    | Address                  // 'address'
    | Patient                  // 'patient'
    | Psychologist             // 'psychologist'
    | Date                     // 'date'
    | Time                     // 'time'
    | Status                   // 'status'
    | StatusDisplay            // 'status_display'
    | Notes                    // 'notes'
}
